/**
 The model metadata index: one-at-a-time lookup against the database, with SQL `LIKE`,
 and batch lookup against an in-memory dictionary, with string prefixes.
 */
module ModelMetadata {
  import opened Text

  /** A cached registry entry; `name` is the unique normalized name. */
  datatype Row = Row(name: string, supportsReasoning: bool, maxOutputTokens: Option<int>, mode: Option<string>)

  datatype Metadata = Metadata(supportsReasoning: Option<bool>, maxOutputTokens: Option<int>, mode: Option<string>)

  const UNKNOWN := Metadata(None, None, None)

  ghost predicate UniqueNames(rows: seq<Row>) {
    forall i, j :: 0 <= i < j < |rows| ==> rows[i].name != rows[j].name
  }

  // ---------- Name normalization ----------

  /** `s.split(c)[-1]` */
  function LastSegment(s: string, c: char): (r: string)
    ensures c !in r
  {
    if c in s then LastSegment(s[1..], c) else s
  }

  /** `s.split(c)[0]` */
  function FirstSegment(s: string, c: char): (r: string)
    ensures c !in r && r <= s
  {
    if s == [] || s[0] == c then [] else [s[0]] + FirstSegment(s[1..], c)
  }

  function NormalizeModelName(name: string): string {
    Lower(FirstSegment(FirstSegment(LastSegment(name, '/'), ':'), '@'))
  }

  lemma {:induction false} LastSegmentAfter(path: string, s: string, c: char)
    requires c !in s && (path == [] || path[|path| - 1] == c)
    ensures LastSegment(path + s, c) == s
  {
    if path == [] {
      assert path + s == s;
    } else {
      assert (path + s)[|path| - 1] == c && (path + s)[1..] == path[1..] + s;
      LastSegmentAfter(path[1..], s, c);
    }
  }

  lemma {:induction false} FirstSegmentBefore(s: string, rest: string, c: char)
    requires c !in s
    ensures FirstSegment(s + rest, c) == s + FirstSegment(rest, c)
  {
    if s == [] {
      assert s + rest == rest;
    } else {
      assert (s + rest)[1..] == s[1..] + rest;
      FirstSegmentBefore(s[1..], rest, c);
    }
  }

  /** A provider path in front and a `:` or `@` tag behind make no difference, nor does letter case. */
  lemma NormalizeKeepsBase(path: string, base: string, tag: string)
    requires path == [] || path[|path| - 1] == '/'
    requires '/' !in base && ':' !in base && '@' !in base
    requires '/' !in tag && (tag == [] || tag[0] == ':' || tag[0] == '@')
    ensures NormalizeModelName(path + base + tag) == Lower(base)
  {
    assert path + base + tag == path + (base + tag);
    LastSegmentAfter(path, base + tag, '/');
    var rest := FirstSegment(tag, ':');
    FirstSegmentBefore(base, tag, ':');
    FirstSegmentBefore(base, rest, '@');
    assert FirstSegment(rest, '@') == [] && base + [] == base;
  }

  predicate IsDigit(c: char) {
    '0' <= c <= '9'
  }

  /** The regular expression's substitution, `prev` being the character before `s`. */
  function Hyphenate(s: string, afterHyphen: bool): (r: string)
    ensures |r| >= |s| && (|r| == |s| ==> r == s)
    ensures s != [] ==> r[|r| - 1] == s[|s| - 1]
    ensures forall c :: c in r ==> c in s || c == '-'
  {
    if |s| < 2 then s
    else if !afterHyphen && 'a' <= s[0] <= 'z' && IsDigit(s[1]) then
      var rest := Hyphenate(s[2..], false);
      [s[0], '-', s[1]] + rest
    else [s[0]] + Hyphenate(s[1..], s[0] == '-')
  }

  function AltNormalize(name: string): (r: Option<string>)
    ensures r.Some? ==> |r.value| > |name| && (name != [] ==> r.value[|r.value| - 1] == name[|name| - 1])
    ensures r.Some? ==> forall c :: c in r.value ==> c in name || c == '-'
  {
    var alt := Hyphenate(name, false);
    if alt != name then Some(alt) else None
  }

  // ---------- Combining several rows ----------

  /** The values `f` finds, in order. */
  function Collect<T>(rows: seq<Row>, f: Row -> Option<T>): seq<T> {
    if rows == [] then [] else (if f(rows[0]).Some? then [f(rows[0]).value] else []) + Collect(rows[1..], f)
  }

  lemma {:induction false} CollectConcat<T>(a: seq<Row>, b: seq<Row>, f: Row -> Option<T>)
    ensures Collect(a + b, f) == Collect(a, f) + Collect(b, f)
  {
    if a == [] {
      assert a + b == b;
    } else {
      CollectConcat(a[1..], b, f);
      assert (a + b)[1..] == a[1..] + b && (a + b)[0] == a[0];
    }
  }

  lemma CollectConcat3<T>(a: seq<Row>, x: Row, b: seq<Row>, f: Row -> Option<T>)
    ensures multiset(Collect(a + [x] + b, f)) == multiset(Collect(a + b, f)) + multiset(Collect([x], f))
  {
    CollectConcat(a + [x], b, f);
    CollectConcat(a, [x], f);
    CollectConcat(a, b, f);
  }

  lemma SplitAt<T>(s: seq<T>, i: nat)
    requires i < |s|
    ensures s == s[..i] + [s[i]] + s[i + 1..]
  {
  }

  lemma SameElements<T>(a: seq<T>, b: seq<T>)
    requires multiset(a) == multiset(b)
    ensures |a| == |b| && forall x :: x in a <==> x in b
  {
    assert |a| == |multiset(a)| == |multiset(b)| == |b|;
    assert forall x :: (x in a <==> x in multiset(a)) && (x in b <==> x in multiset(b));
  }

  /** Reordering the rows only reorders what is collected. */
  lemma {:induction false} CollectPermutation<T>(a: seq<Row>, b: seq<Row>, f: Row -> Option<T>)
    requires multiset(a) == multiset(b)
    ensures multiset(Collect(a, f)) == multiset(Collect(b, f))
  {
    SameElements(a, b);
    if a != [] {
      assert a[0] in b;
      var i :| 0 <= i < |b| && b[i] == a[0];
      var l, r := b[..i], b[i + 1..];
      SplitAt(b, i);
      assert a == [a[0]] + a[1..];
      assert multiset(l + r) == multiset(b) - multiset{a[0]};
      CollectPermutation(a[1..], l + r, f);
      CollectConcat3(l, a[0], r, f);
      CollectConcat([a[0]], a[1..], f);
    }
  }

  /** Python's string order: by code points, a proper prefix first. */
  predicate LexLess(a: string, b: string) {
    b != [] && (a == [] || a[0] < b[0] || (a[0] == b[0] && LexLess(a[1..], b[1..])))
  }

  lemma {:induction false} LexTotal(a: string, b: string)
    ensures a == b || LexLess(a, b) || LexLess(b, a)
    ensures !(LexLess(a, b) && LexLess(b, a)) && !LexLess(a, a)
  {
    if a != [] && b != [] {
      LexTotal(a[1..], b[1..]);
      if a[0] == b[0] && a[1..] == b[1..] {
        assert a == [a[0]] + a[1..] == b;
      }
    }
    if a != [] {
      LexTotal(a[1..], a[1..]);
    }
  }

  lemma {:induction false} LexTransitive(a: string, b: string, c: string)
    requires LexLess(a, b) && LexLess(b, c)
    ensures LexLess(a, c)
  {
    if a != [] && a[0] == b[0] == c[0] {
      LexTransitive(a[1..], b[1..], c[1..]);
    }
  }

  ghost predicate StrictlySorted(s: seq<string>) {
    forall i, j :: 0 <= i < j < |s| ==> LexLess(s[i], s[j])
  }

  function InsertSorted(x: string, s: seq<string>): (r: seq<string>)
    ensures forall y :: y in r <==> y == x || y in s
  {
    if s == [] then [x]
    else if x == s[0] then s
    else if LexLess(x, s[0]) then [x] + s
    else [s[0]] + InsertSorted(x, s[1..])
  }

  lemma {:induction false} InsertKeepsSorted(x: string, s: seq<string>)
    requires StrictlySorted(s)
    ensures StrictlySorted(InsertSorted(x, s))
  {
    if s != [] && x != s[0] {
      LexTotal(x, s[0]);
      if LexLess(x, s[0]) {
        forall j | 0 < j < |s| ensures LexLess(x, s[j]) {
          LexTransitive(x, s[0], s[j]);
        }
      } else {
        InsertKeepsSorted(x, s[1..]);
        forall y | y in InsertSorted(x, s[1..]) ensures LexLess(s[0], y) {
        }
      }
    }
  }

  /** `sorted(set(s))` */
  function SortedSet(s: seq<string>): (r: seq<string>)
    ensures forall y :: y in r <==> y in s
  {
    if s == [] then [] else InsertSorted(s[0], SortedSet(s[1..]))
  }

  lemma {:induction false} SortedSetSorted(s: seq<string>)
    ensures StrictlySorted(SortedSet(s))
  {
    if s != [] {
      SortedSetSorted(s[1..]);
      InsertKeepsSorted(s[0], SortedSet(s[1..]));
    }
  }

  /** `max(candidates, key=present.count)`: the first candidate of greatest count. */
  function FirstMostFrequent(candidates: seq<string>, present: seq<string>): (r: string)
    requires candidates != []
  {
    var n := |candidates| - 1;
    if n == 0 then candidates[0]
    else
      var best := FirstMostFrequent(candidates[..n], present);
      if multiset(present)[candidates[n]] > multiset(present)[best] then candidates[n] else best
  }

  /** `_majority_mode` on the non-empty modes. */
  function MajorityMode(present: seq<string>): Option<string> {
    if present == [] then None else Some(FirstMostFrequent(SortedSet(present), present))
  }

  /** `m` occurs most often in `present` and comes first among those that do. */
  ghost predicate IsMajority(present: seq<string>, m: string) {
    && m in present
    && forall x :: x in present && x != m ==>
         multiset(present)[x] < multiset(present)[m] || (multiset(present)[x] == multiset(present)[m] && LexLess(m, x))
  }

  lemma {:induction false} FirstMostFrequentIs(candidates: seq<string>, present: seq<string>)
    requires candidates != [] && StrictlySorted(candidates)
    ensures var m := FirstMostFrequent(candidates, present);
            && m in candidates
            && forall x :: x in candidates && x != m ==>
                 multiset(present)[x] < multiset(present)[m] || (multiset(present)[x] == multiset(present)[m] && LexLess(m, x))
  {
    var n := |candidates| - 1;
    if n > 0 {
      FirstMostFrequentIs(candidates[..n], present);
      assert candidates == candidates[..n] + [candidates[n]];
    }
  }

  /** The majority mode is the lexicographically least of the most frequent ones. */
  lemma MajorityModeIs(present: seq<string>)
    requires present != []
    ensures IsMajority(present, MajorityMode(present).value)
  {
    SortedSetSorted(present);
    assert present[0] in SortedSet(present);
    FirstMostFrequentIs(SortedSet(present), present);
  }

  lemma MajorityUnique(a: seq<string>, b: seq<string>, m: string, n: string)
    requires multiset(a) == multiset(b) && IsMajority(a, m) && IsMajority(b, n)
    ensures m == n
  {
    SameElements(a, b);
    LexTotal(m, n);
  }

  /** No permutation of the votes changes the outcome. */
  lemma MajorityModePermutation(a: seq<string>, b: seq<string>)
    requires multiset(a) == multiset(b)
    ensures MajorityMode(a) == MajorityMode(b)
  {
    SameElements(a, b);
    if a != [] {
      MajorityModeIs(a);
      MajorityModeIs(b);
      MajorityUnique(a, b, MajorityMode(a).value, MajorityMode(b).value);
    }
  }

  function MinOf(s: seq<int>): (r: Option<int>)
    ensures r.None? <==> s == []
    ensures r.Some? ==> r.value in s && forall x :: x in s ==> r.value <= x
  {
    if s == [] then None
    else
      var rest := MinOf(s[1..]);
      assert s == [s[0]] + s[1..];
      if rest.Some? && rest.value < s[0] then rest else Some(s[0])
  }

  function ModeOf(r: Row): Option<string> {
    if r.mode.Some? && r.mode.value != "" then r.mode else None
  }

  function OutputOf(r: Row): Option<int> {
    r.maxOutputTokens
  }

  /** Several prefix matches answer together: any, minimum, majority. */
  function Combine(matches: seq<Row>): (m: Option<Metadata>)
    ensures m.Some? <==> matches != []
    ensures m.Some? ==> m.value.supportsReasoning.Some?
  {
    if matches == [] then None
    else Some(Metadata(Some(exists r :: r in matches && r.supportsReasoning),
                       MinOf(Collect(matches, OutputOf)),
                       MajorityMode(Collect(matches, ModeOf))))
  }

  lemma {:induction false} CollectHas<T>(rows: seq<Row>, f: Row -> Option<T>, x: T)
    ensures x in Collect(rows, f) <==> exists i :: 0 <= i < |rows| && f(rows[i]) == Some(x)
  {
    if rows != [] {
      CollectHas(rows[1..], f, x);
      assert rows == [rows[0]] + rows[1..];
      if exists i :: 0 <= i < |rows| && f(rows[i]) == Some(x) {
        var i :| 0 <= i < |rows| && f(rows[i]) == Some(x);
        if i > 0 {
          assert f(rows[1..][i - 1]) == Some(x);
        }
      }
      if x in Collect(rows[1..], f) {
        var i :| 0 <= i < |rows[1..]| && f(rows[1..][i]) == Some(x);
        assert f(rows[i + 1]) == Some(x);
      }
    }
  }

  /**
   Rows answer together: reasoning if any of them reasons, the smallest limit any of them has, and the mode most
   of those that have one agree on, the least in case of a tie.
   */
  lemma CombineIs(matches: seq<Row>)
    requires matches != []
    ensures var m := Combine(matches).value;
            && m.supportsReasoning == Some(exists i :: 0 <= i < |matches| && matches[i].supportsReasoning)
            && (m.maxOutputTokens.None? <==> forall i :: 0 <= i < |matches| ==> matches[i].maxOutputTokens.None?)
            && (m.maxOutputTokens.Some? ==>
                  && (exists i :: 0 <= i < |matches| && matches[i].maxOutputTokens == m.maxOutputTokens)
                  && forall i :: 0 <= i < |matches| && matches[i].maxOutputTokens.Some? ==>
                                   m.maxOutputTokens.value <= matches[i].maxOutputTokens.value)
            && (m.mode.None? <==> forall i :: 0 <= i < |matches| ==> matches[i].mode in {None, Some("")})
            && (m.mode.Some? ==> IsMajority(Collect(matches, ModeOf), m.mode.value))
  {
    LimitIs(matches);
    ModeIs(matches);
    hide MinOf, MajorityMode, Collect;
    var m := Combine(matches).value;
    if exists r :: r in matches && r.supportsReasoning {
      var r :| r in matches && r.supportsReasoning;
      var i :| 0 <= i < |matches| && matches[i] == r;
      assert matches[i].supportsReasoning;
    }
    if exists i :: 0 <= i < |matches| && matches[i].supportsReasoning {
      var i :| 0 <= i < |matches| && matches[i].supportsReasoning;
      assert matches[i] in matches;
    }
  }

  lemma LimitIs(matches: seq<Row>)
    ensures var limit := MinOf(Collect(matches, OutputOf));
            && (limit.None? <==> forall i :: 0 <= i < |matches| ==> matches[i].maxOutputTokens.None?)
            && (limit.Some? ==>
                  && (exists i :: 0 <= i < |matches| && matches[i].maxOutputTokens == limit)
                  && forall i :: 0 <= i < |matches| && matches[i].maxOutputTokens.Some? ==>
                                   limit.value <= matches[i].maxOutputTokens.value)
  {
    var limits := Collect(matches, OutputOf);
    forall i | 0 <= i < |matches| && matches[i].maxOutputTokens.Some? ensures matches[i].maxOutputTokens.value in limits {
      CollectHas(matches, OutputOf, matches[i].maxOutputTokens.value);
    }
    hide Collect, MinOf;
    if limits != [] {
      assert limits[0] in limits;
      CollectHas(matches, OutputOf, limits[0]);
      CollectHas(matches, OutputOf, MinOf(limits).value);
    }
  }

  lemma ModeIs(matches: seq<Row>)
    ensures var mode := MajorityMode(Collect(matches, ModeOf));
            && (mode.None? <==> forall i :: 0 <= i < |matches| ==> matches[i].mode in {None, Some("")})
            && (mode.Some? ==> IsMajority(Collect(matches, ModeOf), mode.value))
  {
    var modes := Collect(matches, ModeOf);
    forall i | 0 <= i < |matches| && matches[i].mode !in {None, Some("")} ensures matches[i].mode.value in modes {
      CollectHas(matches, ModeOf, matches[i].mode.value);
    }
    if modes != [] {
      MajorityModeIs(modes);
      assert modes[0] in modes;
      CollectHas(matches, ModeOf, modes[0]);
    }
  }

  lemma CombinePermutation(a: seq<Row>, b: seq<Row>)
    requires multiset(a) == multiset(b)
    ensures Combine(a) == Combine(b)
  {
    SameElements(a, b);
    CollectPermutation(a, b, OutputOf);
    CollectPermutation(a, b, ModeOf);
    MajorityModePermutation(Collect(a, ModeOf), Collect(b, ModeOf));
    SameElements(Collect(a, OutputOf), Collect(b, OutputOf));
  }

  function NamedRow(name: string): Row -> Option<Row> {
    (r: Row) => if r.name == name then Some(r) else None
  }

  function FullMetadata(r: Row): Metadata {
    Metadata(Some(r.supportsReasoning), r.maxOutputTokens, r.mode)
  }

  /** An exact match answers alone; otherwise the rows `related` selects answer together. */
  function Match(rows: seq<Row>, name: string, related: Row -> Option<Row>): (m: Option<Metadata>)
    ensures m.Some? ==> m.value.supportsReasoning.Some?
  {
    var exact := Collect(rows, NamedRow(name));
    if exact != [] then Some(FullMetadata(exact[0])) else Combine(Collect(rows, related))
  }

  // ---------- The two lookups ----------

  const WILDCARDS := {'%', '_', '\\'}

  predicate HasWildcard(s: string) {
    exists c :: c in s && c in WILDCARDS
  }

  /** SQL `s LIKE p`, with the backslash as PostgreSQL's default escape character. */
  predicate Like(p: string, s: string)
    decreases |p| + |s|
  {
    if p == [] then s == []
    else if p[0] == '%' then Like(p[1..], s) || (s != [] && Like(p, s[1..]))
    else if p[0] == '_' then s != [] && Like(p[1..], s[1..])
    else if p[0] == '\\' then |p| > 1 && s != [] && s[0] == p[1] && Like(p[2..], s[1..])
    else s != [] && s[0] == p[0] && Like(p[1..], s[1..])
  }

  function LikeRow(name: string): Row -> Option<Row> {
    (r: Row) => if Like(name + "-%", r.name) || Like(name + ".%", r.name) then Some(r) else None
  }

  function PrefixRow(name: string): Row -> Option<Row> {
    (r: Row) => if name + "-" <= r.name || name + "." <= r.name then Some(r) else None
  }

  /** A match on the normalized name, else on its hyphenated form, else nothing known. */
  function LookupNormalized(rows: seq<Row>, name: string): Metadata {
    var found := Match(rows, name, LikeRow(name));
    if found.Some? then found.value
    else
      var alt := AltNormalize(name);
      var again := if alt.Some? then Match(rows, alt.value, LikeRow(alt.value)) else None;
      if again.Some? then again.value else UNKNOWN
  }

  /** `lookup_model_metadata` over the table in the order the query returns it. */
  function Lookup(rows: seq<Row>, modelName: string): Metadata {
    LookupNormalized(rows, NormalizeModelName(modelName))
  }

  /** What the batch answers for one name, the dictionary holding `rows` in insertion order. */
  function BatchNormalized(rows: seq<Row>, name: string): Metadata {
    var found := Match(rows, name, PrefixRow(name));
    var alt := AltNormalize(name);
    var again := if found.None? && alt.Some? then Match(rows, alt.value, PrefixRow(alt.value)) else found;
    if again.Some? then again.value else UNKNOWN
  }

  function BatchAnswer(rows: seq<Row>, modelName: string): Metadata {
    BatchNormalized(rows, NormalizeModelName(modelName))
  }

  /** `d[row.name] = row` on an insertion-ordered dictionary. */
  function DictPut(d: seq<Row>, row: Row): seq<Row> {
    if d == [] then [row]
    else if d[0].name == row.name then [row] + d[1..]
    else [d[0]] + DictPut(d[1..], row)
  }

  lemma {:induction false} DictPutNew(d: seq<Row>, row: Row)
    requires forall i :: 0 <= i < |d| ==> d[i].name != row.name
    ensures DictPut(d, row) == d + [row]
  {
    if d != [] {
      DictPutNew(d[1..], row);
    }
  }

  method BatchLookup(rows: seq<Row>, names: seq<string>) returns (results: map<string, Metadata>)
    requires UniqueNames(rows)
    ensures forall n :: n in results <==> n in names
    ensures forall n :: n in names ==> results[n] == BatchAnswer(rows, n)
    ensures forall n :: n in names && !HasWildcard(NormalizeModelName(n)) ==> results[n] == Lookup(rows, n)
  {
    var byName: seq<Row> := [];
    for i := 0 to |rows|
      invariant byName == rows[..i]
    {
      DictPutNew(byName, rows[i]);
      byName := DictPut(byName, rows[i]);
    }
    assert byName == rows;
    results := map[];
    for i := 0 to |names|
      invariant forall n :: n in results <==> n in names[..i]
      invariant forall n :: n in names[..i] ==> results[n] == BatchAnswer(rows, n)
    {
      assert names[..i + 1] == names[..i] + [names[i]];
      var name := NormalizeModelName(names[i]);
      var meta := Match(byName, name, PrefixRow(name));
      var alt := AltNormalize(name);
      if meta.None? && alt.Some? {
        meta := Match(byName, alt.value, PrefixRow(alt.value));
      }
      var answer := if meta.Some? then meta.value else UNKNOWN;
      assert answer == BatchNormalized(rows, name);
      results := results[names[i] := answer];
    }
    assert names[..|names|] == names;
    forall n | n in names && !HasWildcard(NormalizeModelName(n)) ensures results[n] == Lookup(rows, n) {
      PlainNamesAgree(rows, NormalizeModelName(n));
    }
  }

  /** The rows a name reaches in memory: those that begin with it and a separator. */
  lemma Reaches(rows: seq<Row>, name: string, r: Row)
    ensures r in Collect(rows, PrefixRow(name)) <==> r in rows && (name + "-" <= r.name || name + "." <= r.name)
  {
    CollectHas(rows, PrefixRow(name), r);
    if r in rows && (name + "-" <= r.name || name + "." <= r.name) {
      var i :| 0 <= i < |rows| && rows[i] == r;
      assert PrefixRow(name)(rows[i]) == Some(r);
    }
  }

  /** What matches a name answers: the row of that name alone, or together those that extend it; nothing else. */
  lemma MatchIs(rows: seq<Row>, name: string)
    requires UniqueNames(rows)
    ensures forall r :: r in rows && r.name == name ==>
              Match(rows, name, PrefixRow(name)) == Some(Metadata(Some(r.supportsReasoning), r.maxOutputTokens, r.mode))
    ensures (forall r :: r in rows ==> r.name != name) ==>
              Match(rows, name, PrefixRow(name)) == Combine(Collect(rows, PrefixRow(name)))
  {
    var exact := Collect(rows, NamedRow(name));
    forall r | r in rows && r.name == name ensures exact == [r] {
      CollectHas(rows, NamedRow(name), r);
      NamedRowsOfUnique(rows, name);
      var i :| 0 <= i < |rows| && rows[i] == r;
      assert NamedRow(name)(rows[i]) == Some(r);
    }
    if exact != [] {
      CollectHas(rows, NamedRow(name), exact[0]);
    }
  }

  /** A name that matches nothing is tried once more in its hyphenated form; what is not found is unknown. */
  lemma BatchAnswerIs(rows: seq<Row>, modelName: string)
    ensures var name := NormalizeModelName(modelName);
            var found, alt := Match(rows, name, PrefixRow(name)), AltNormalize(name);
            BatchAnswer(rows, modelName) ==
            if found.Some? then found.value
            else if alt.Some? && Match(rows, alt.value, PrefixRow(alt.value)).Some?
            then Match(rows, alt.value, PrefixRow(alt.value)).value
            else Metadata(None, None, None)
  {
    hide Match, NormalizeModelName, AltNormalize;
  }

  /** The hyphen goes between a letter and a digit, unless a hyphen stands before the letter. */
  lemma AltNormalizeIs(s: string)
    ensures |s| >= 2 && 'a' <= s[0] <= 'z' && IsDigit(s[1]) ==> Hyphenate(s, false) == [s[0], '-', s[1]] + Hyphenate(s[2..], false)
    ensures |s| >= 2 && !('a' <= s[0] <= 'z' && IsDigit(s[1])) ==>
              Hyphenate(s, false) == [s[0]] + Hyphenate(s[1..], s[0] == '-')
    ensures |s| >= 2 ==> Hyphenate(s, true) == [s[0]] + Hyphenate(s[1..], s[0] == '-')
    ensures |s| < 2 ==> Hyphenate(s, false) == s && Hyphenate(s, true) == s
    ensures AltNormalize(s) == if Hyphenate(s, false) == s then None else Some(Hyphenate(s, false))
  {
  }

  // ---------- Agreement ----------

  lemma {:induction false} PercentMatchesAll(s: string)
    ensures Like("%", s)
  {
    if s == [] {
      assert "%"[1..] == "";
    } else {
      PercentMatchesAll(s[1..]);
    }
  }

  /** Without wildcards, `LIKE 'name-%'` is a prefix test. */
  lemma {:induction false} PlainLikeIsPrefix(name: string, c: char, s: string)
    requires !HasWildcard(name) && c !in WILDCARDS
    ensures Like(name + [c, '%'], s) <==> name + [c] <= s
  {
    var p := name + [c, '%'];
    if name == [] {
      assert p[1..] == "%";
      if s != [] {
        PercentMatchesAll(s[1..]);
      }
    } else {
      assert name[0] in name && p[1..] == name[1..] + [c, '%'];
      assert !HasWildcard(name[1..]);
      if s != [] {
        PlainLikeIsPrefix(name[1..], c, s[1..]);
        assert name + [c] == [name[0]] + (name[1..] + [c]);
        assert name + [c] <= s <==> name[0] == s[0] && name[1..] + [c] <= s[1..];
      }
    }
  }

  lemma {:induction false} CollectSame<T>(rows: seq<Row>, f: Row -> Option<T>, g: Row -> Option<T>)
    requires forall r :: f(r) == g(r)
    ensures Collect(rows, f) == Collect(rows, g)
  {
    if rows != [] {
      CollectSame(rows[1..], f, g);
    }
  }

  lemma PlainMatchAgrees(rows: seq<Row>, name: string)
    requires !HasWildcard(name)
    ensures Match(rows, name, LikeRow(name)) == Match(rows, name, PrefixRow(name))
  {
    forall r ensures LikeRow(name)(r) == PrefixRow(name)(r) {
      PlainLikeIsPrefix(name, '-', r.name);
      PlainLikeIsPrefix(name, '.', r.name);
    }
    CollectSame(rows, LikeRow(name), PrefixRow(name));
  }

  lemma PlainNamesAgree(rows: seq<Row>, name: string)
    requires !HasWildcard(name)
    ensures LookupNormalized(rows, name) == BatchNormalized(rows, name)
  {
    PlainMatchAgrees(rows, name);
    if AltNormalize(name).Some? {
      PlainMatchAgrees(rows, AltNormalize(name).value);
    }
  }

  /** One string the pattern `name` matches: wildcards dropped or replaced, escapes resolved. */
  function Instance(name: string): (r: string)
    ensures |r| <= |name|
    ensures HasWildcard(name) ==> r != name
  {
    if name == [] then []
    else if name[0] == '%' then Instance(name[1..])
    else if name[0] == '_' then ['~'] + Instance(name[1..])
    else if name[0] == '\\' then (if |name| == 1 then [] else [name[1]] + Instance(name[2..]))
    else
      assert HasWildcard(name) ==> HasWildcard(name[1..]);
      [name[0]] + Instance(name[1..])
  }

  lemma {:induction false} InstanceMatches(name: string, tail: string)
    ensures Like(name + "-%", Instance(name) + "-" + tail)
  {
    var p, s := name + "-%", Instance(name) + "-" + tail;
    if name == [] {
      assert p[1..] == "%" && s[1..] == tail;
      PercentMatchesAll(tail);
    } else if name == "\\" {
      assert p == "\\-%" && p[2..] == "%" && s[1..] == tail;
      PercentMatchesAll(tail);
    } else if name[0] == '\\' {
      assert p[2..] == name[2..] + "-%" && s[1..] == Instance(name[2..]) + "-" + tail;
      InstanceMatches(name[2..], tail);
    } else {
      assert p[1..] == name[1..] + "-%";
      InstanceMatches(name[1..], tail);
      if name[0] == '%' {
        assert s == Instance(name[1..]) + "-" + tail;
      } else {
        assert s[1..] == Instance(name[1..]) + "-" + tail;
      }
    }
  }

  /** A row that the SQL lookup finds for a name with a wildcard and the batch does not. */
  function Stray(name: string): Row
    requires name != []
  {
    Row(Instance(name) + "-" + (if name[|name| - 1] == 'x' then "y" else "x"), true, None, None)
  }

  /** A longer or equally long name ending like `name` is not a prefix of the stray row's name. */
  lemma StrayIsNoExtension(name: string, n: string, c: char)
    requires HasWildcard(name) && (n == name || |n| > |name|) && (c == '-' || c == '.')
    ensures !(n + [c] <= Stray(name).name)
  {
    var w := Stray(name).name;
    assert w[|w| - 1] != c && w[..|Instance(name)|] == Instance(name);
  }

  lemma MatchSingle(r: Row, name: string, related: Row -> Option<Row>)
    ensures Match([r], name, related).Some? <==> r.name == name || related(r).Some?
  {
    assert [r][1..] == [];
    assert Collect([r], NamedRow(name)) == if r.name == name then [r] else [];
    assert Collect([r], related) == if related(r).Some? then [related(r).value] else [];
  }

  lemma StrayIsUnrelated(name: string, n: string)
    requires HasWildcard(name) && n != [] && n[|n| - 1] == name[|name| - 1]
    requires n == name || |n| > |name|
    ensures Match([Stray(name)], n, PrefixRow(n)) == None
  {
    var w := Stray(name);
    assert w.name[|w.name| - 1] != name[|name| - 1];
    StrayIsNoExtension(name, n, '-');
    StrayIsNoExtension(name, n, '.');
    MatchSingle(w, n, PrefixRow(n));
  }

  lemma StrayMatchesPattern(name: string)
    requires name != []
    ensures Match([Stray(name)], name, LikeRow(name)).Some?
  {
    InstanceMatches(name, if name[|name| - 1] == 'x' then "y" else "x");
    MatchSingle(Stray(name), name, LikeRow(name));
  }

  /** A table found through the pattern but through neither prefix separates the two lookups. */
  lemma SeparatesLookups(rows: seq<Row>, name: string)
    requires Match(rows, name, LikeRow(name)).Some? && Match(rows, name, PrefixRow(name)).None?
    requires AltNormalize(name).Some? ==> Match(rows, AltNormalize(name).value, PrefixRow(AltNormalize(name).value)).None?
    ensures LookupNormalized(rows, name) != BatchNormalized(rows, name)
  {
  }

  lemma StrayIsUnrelatedToAlternative(name: string)
    requires HasWildcard(name)
    ensures AltNormalize(name).Some? ==>
              Match([Stray(name)], AltNormalize(name).value, PrefixRow(AltNormalize(name).value)).None?
  {
    if AltNormalize(name).Some? {
      StrayIsUnrelated(name, AltNormalize(name).value);
    }
  }

  lemma WildcardNamesDisagree(name: string, rows: seq<Row>)
    requires HasWildcard(name) && rows == [Stray(name)]
    ensures LookupNormalized(rows, name) != BatchNormalized(rows, name)
  {
    StrayMatchesPattern(name);
    StrayIsUnrelated(name, name);
    StrayIsUnrelatedToAlternative(name);
    SeparatesLookups(rows, name);
  }

  /** The two lookups agree on every table exactly for the names whose normal form has no LIKE metacharacter. */
  lemma LookupsAgreeIff(modelName: string)
    ensures (forall rows :: UniqueNames(rows) ==> Lookup(rows, modelName) == BatchAnswer(rows, modelName))
            <==> !HasWildcard(NormalizeModelName(modelName))
  {
    if HasWildcard(NormalizeModelName(modelName)) {
      var name := NormalizeModelName(modelName);
      var rows := [Stray(name)];
      WildcardNamesDisagree(name, rows);
      assert UniqueNames(rows) && Lookup(rows, modelName) != BatchAnswer(rows, modelName);
    } else {
      forall rows | UniqueNames(rows) ensures Lookup(rows, modelName) == BatchAnswer(rows, modelName) {
        PlainNamesAgree(rows, NormalizeModelName(modelName));
      }
    }
  }

  // ---------- Row order ----------

  lemma {:induction false} NamedRowsOfUnique(rows: seq<Row>, name: string)
    requires UniqueNames(rows)
    ensures |Collect(rows, NamedRow(name))| <= 1
    ensures Collect(rows, NamedRow(name)) != [] ==> exists i :: 0 <= i < |rows| && rows[i].name == name
  {
    if rows != [] {
      NamedRowsOfUnique(rows[1..], name);
    }
  }

  lemma ExactPermutation(a: seq<Row>, b: seq<Row>, name: string)
    requires multiset(a) == multiset(b) && UniqueNames(a) && UniqueNames(b)
    ensures Collect(a, NamedRow(name)) == Collect(b, NamedRow(name))
  {
    var x, y := Collect(a, NamedRow(name)), Collect(b, NamedRow(name));
    CollectPermutation(a, b, NamedRow(name));
    NamedRowsOfUnique(a, name);
    NamedRowsOfUnique(b, name);
    SameElements(x, y);
    if x != [] {
      assert x[0] in y && x == [x[0]] && y == [y[0]];
    }
  }

  lemma MatchPermutation(a: seq<Row>, b: seq<Row>, name: string, related: Row -> Option<Row>)
    requires multiset(a) == multiset(b) && UniqueNames(a) && UniqueNames(b)
    ensures Match(a, name, related) == Match(b, name, related)
  {
    ExactPermutation(a, b, name);
    CollectPermutation(a, b, related);
    CombinePermutation(Collect(a, related), Collect(b, related));
  }

  /** Neither lookup depends on the order in which the table is read. */
  lemma LookupsIgnoreRowOrder(a: seq<Row>, b: seq<Row>, modelName: string)
    requires multiset(a) == multiset(b) && UniqueNames(a) && UniqueNames(b)
    ensures Lookup(a, modelName) == Lookup(b, modelName)
    ensures BatchAnswer(a, modelName) == BatchAnswer(b, modelName)
  {
    var name := NormalizeModelName(modelName);
    LookupPermutation(a, b, name);
    BatchPermutation(a, b, name);
  }

  lemma LookupPermutation(a: seq<Row>, b: seq<Row>, name: string)
    requires multiset(a) == multiset(b) && UniqueNames(a) && UniqueNames(b)
    ensures LookupNormalized(a, name) == LookupNormalized(b, name)
  {
    MatchPermutation(a, b, name, LikeRow(name));
    if AltNormalize(name).Some? {
      MatchPermutation(a, b, AltNormalize(name).value, LikeRow(AltNormalize(name).value));
    }
  }

  lemma BatchPermutation(a: seq<Row>, b: seq<Row>, name: string)
    requires multiset(a) == multiset(b) && UniqueNames(a) && UniqueNames(b)
    ensures BatchNormalized(a, name) == BatchNormalized(b, name)
  {
    MatchPermutation(a, b, name, PrefixRow(name));
    if AltNormalize(name).Some? {
      MatchPermutation(a, b, AltNormalize(name).value, PrefixRow(AltNormalize(name).value));
    }
  }
}
