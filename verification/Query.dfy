// The query compiler: filters and scoped blocks become Elasticsearch clauses,
// whose meaning on a document is given here clause by clause.

module Query {
  import opened Wrappers

  // ------------------------------------------------------------------ filters

  datatype Op = Eq | In | Neq | NotIn | Gt | Gte | Lt | Lte | PrefixOf | SuffixOf | Contains | Exists | NotExists
    | Unknown

  predicate IsNegation(op: Op): (yes: bool)
    ensures yes <==> op in {Neq, NotIn, NotExists}
  {
    op == Neq || op == NotIn || op == NotExists
  }

  /** A structured filter; `path` is empty unless its field lives inside a
      nested object. */
  datatype Filter = Filter(field: string, op: Op, value: string, values: seq<string>, path: string)

  /** A scoped nested block: each entry carries its tenants under scopeKey. */
  datatype Block = Block(name: string, scopeKey: string)

  // ------------------------------------------------------ clauses and documents

  datatype RangeKey = KeyGt | KeyGte | KeyLt | KeyLte

  datatype Clause =
    | Term(field: string, value: string)
    | Terms(field: string, values: seq<string>)
    | Range(field: string, key: RangeKey, bound: string)
    | Prefix(field: string, value: string)
    | Wildcard(field: string, pattern: string)
    | HasField(field: string)
    | IndexIs(alias: string)
    | Text(words: string, tenant: string)
    | Nested(path: string, query: Clause)
    | Bool(must: seq<Clause>, mustNot: seq<Clause>)
    | AnyOf(should: seq<Clause>)
    | MatchNone

  type Fields = map<string, seq<string>>

  /** A document: its concrete index, its own fields' values, and the entries of each
      nested block, whose fields carry the block's name. */
  datatype Doc = Doc(index: string, id: string, fields: Fields, nested: map<string, seq<Fields>>)

  /** What the engine decides: how a field's values are ordered, whether a
      document matches a text query, and which index a read alias points to. */
  datatype Engine = Engine(
    less: (string, string) -> bool,
    text: (string, string, Doc) -> bool,
    index: string -> string)

  function Values(f: Fields, field: string): (vs: seq<string>)
    ensures forall v :: v in vs <==> field in f && v in f[field]
    ensures vs == [] <==> field !in f || f[field] == []
  {
    if field in f then f[field] else []
  }

  function Entries(d: Doc, path: string): (es: seq<Fields>)
    ensures forall e :: e in es <==> path in d.nested && e in d.nested[path]
  {
    if path in d.nested then d.nested[path] else []
  }

  /** A nested entry, seen as the document its query runs against. */
  function EntryDoc(d: Doc, e: Fields): Doc {
    Doc(d.index, d.id, e, map[])
  }

  predicate InRange(en: Engine, key: RangeKey, v: string, bound: string) {
    match key
    case KeyGt => en.less(bound, v)
    case KeyGte => v == bound || en.less(bound, v)
    case KeyLt => en.less(v, bound)
    case KeyLte => v == bound || en.less(v, bound)
  }

  /** The engine's wildcard match: `*` any run of characters, `?` any one, and
      a backslash takes the next character literally. */
  predicate WildMatch(p: string, s: string)
    decreases |p| + |s|
  {
    if p == "" then s == ""
    else if p[0] == '*' then WildMatch(p[1..], s) || (s != "" && WildMatch(p, s[1..]))
    else if p[0] == '?' then s != "" && WildMatch(p[1..], s[1..])
    else if p[0] == '\\' && |p| > 1 then s != "" && s[0] == p[1] && WildMatch(p[2..], s[1..])
    else s != "" && s[0] == p[0] && WildMatch(p[1..], s[1..])
  }

  predicate StartsWith(s: string, v: string) {
    |v| <= |s| && s[..|v|] == v
  }

  /** What a clause means on a document. */
  predicate Matches(en: Engine, d: Doc, c: Clause)
    decreases c
  {
    match c
    case Term(f, v) => v in Values(d.fields, f)
    case Terms(f, vs) => exists v :: v in vs && v in Values(d.fields, f)
    case Range(f, key, b) => exists v :: v in Values(d.fields, f) && InRange(en, key, v, b)
    case Prefix(f, p) => exists v :: v in Values(d.fields, f) && StartsWith(v, p)
    case Wildcard(f, p) => exists v :: v in Values(d.fields, f) && WildMatch(p, v)
    case HasField(f) => Values(d.fields, f) != []
    case IndexIs(a) => d.index == en.index(a)
    case Text(q, scope) => en.text(q, scope, d)
    case Nested(path, q) => exists e :: e in Entries(d, path) && Matches(en, EntryDoc(d, e), q)
    case Bool(must, mustNot) =>
      && (forall k :: k in must ==> Matches(en, d, k))
      && (forall k :: k in mustNot ==> !Matches(en, d, k))
    case AnyOf(should) => exists k :: k in should && Matches(en, d, k)
    case MatchNone => false
  }

  ghost predicate MatchesAll(en: Engine, d: Doc, cs: seq<Clause>) {
    forall c :: c in cs ==> Matches(en, d, c)
  }

  lemma MatchesAllAppend(en: Engine, cs: seq<Clause>, c: Clause)
    ensures forall d :: MatchesAll(en, d, cs + [c]) <==> MatchesAll(en, d, cs) && Matches(en, d, c)
  {
    forall d ensures MatchesAll(en, d, cs + [c]) <==> MatchesAll(en, d, cs) && Matches(en, d, c) {
      if MatchesAll(en, d, cs + [c]) { assert c in cs + [c]; }
    }
  }

  // ------------------------------------------------------- what filters mean

  ghost predicate EndsWith(s: string, v: string) {
    exists i :: 0 <= i <= |s| && s[i..] == v
  }

  ghost predicate Holds(s: string, v: string) {
    exists i :: 0 <= i <= |s| && StartsWith(s[i..], v)
  }

  /** The positive sense of a filter's op on the values of its field. */
  ghost predicate Positive(en: Engine, vs: seq<string>, f: Filter) {
    match f.op
    case Eq => f.value in vs
    case Neq => f.value in vs
    case In => exists v :: v in f.values && v in vs
    case NotIn => exists v :: v in f.values && v in vs
    case Gt => exists v :: v in vs && en.less(f.value, v)
    case Gte => exists v :: v in vs && (v == f.value || en.less(f.value, v))
    case Lt => exists v :: v in vs && en.less(v, f.value)
    case Lte => exists v :: v in vs && (v == f.value || en.less(v, f.value))
    case PrefixOf => exists v :: v in vs && StartsWith(v, f.value)
    case SuffixOf => exists v :: v in vs && EndsWith(v, f.value)
    case Contains => exists v :: v in vs && Holds(v, f.value)
    case Exists => vs != []
    case NotExists => vs != []
    case Unknown => false
  }

  /** The positive sense on a document: on a nested path, of some entry. */
  ghost predicate SomePositive(en: Engine, d: Doc, f: Filter) {
    if f.path == "" then Positive(en, Values(d.fields, f.field), f)
    else exists e :: e in Entries(d, f.path) && Positive(en, Values(e, f.field), f)
  }

  /** A filter on a document: neq, not-in and not-exists hold where their
      positive sense does not, on a nested path where no entry satisfies it. */
  ghost predicate FilterHolds(en: Engine, d: Doc, f: Filter) {
    match f.op
    case Neq => !SomePositive(en, d, f)
    case NotIn => !SomePositive(en, d, f)
    case NotExists => !SomePositive(en, d, f)
    case _ => SomePositive(en, d, f)
  }

  /** A filter on one entry of its block. */
  ghost predicate EntryHolds(en: Engine, e: Fields, f: Filter) {
    match f.op
    case Neq => !Positive(en, Values(e, f.field), f)
    case NotIn => !Positive(en, Values(e, f.field), f)
    case NotExists => !Positive(en, Values(e, f.field), f)
    case _ => Positive(en, Values(e, f.field), f)
  }

  /** A filter the compiler refuses: no value, no values, or an unknown op. */
  predicate Invalid(f: Filter) {
    match f.op
    case In => f.values == []
    case NotIn => f.values == []
    case Exists => false
    case NotExists => false
    case Unknown => true
    case _ => f.value == ""
  }

  // ---------------------------------------------------------------- wildcards

  function EscapeChar(c: char): string {
    if c == '\\' || c == '*' || c == '?' then ['\\', c] else [c]
  }

  /** escapeWildcard. */
  function Escape(s: string): string {
    if s == "" then "" else EscapeChar(s[0]) + Escape(s[1..])
  }

  /** A pattern that goes on after an escaped value. */
  lemma {:induction false} EscapeMatches(v: string, rest: string, s: string)
    ensures WildMatch(Escape(v) + rest, s) <==> StartsWith(s, v) && WildMatch(rest, s[|v|..])
    decreases |v|
  {
    var p := Escape(v) + rest;
    if v == "" {
      assert p == rest && s[0..] == s;
    } else {
      var tail := Escape(v[1..]) + rest;
      assert p == EscapeChar(v[0]) + tail;
      if s != "" && s[0] == v[0] {
        EscapeMatches(v[1..], rest, s[1..]);
        assert p[|EscapeChar(v[0])|..] == tail;
        assert StartsWith(s, v) <==> StartsWith(s[1..], v[1..]) by {
          if StartsWith(s[1..], v[1..]) && |v| <= |s| { assert s[..|v|] == [s[0]] + s[1..][..|v| - 1]; }
          if StartsWith(s, v) { assert s[1..][..|v| - 1] == s[..|v|][1..]; }
        }
        if |v| <= |s| { assert s[1..][|v| - 1..] == s[|v|..]; }
      } else {
        if |v| <= |s| { assert s[..|v|][0] == s[0]; }
      }
    }
  }

  /** A leading star matches at any position. */
  lemma {:induction false} StarMatches(p: string, s: string)
    requires p != "" && p[0] == '*'
    ensures WildMatch(p, s) <==> exists i :: 0 <= i <= |s| && WildMatch(p[1..], s[i..])
    decreases |s|
  {
    assert s[0..] == s;
    if s != "" {
      StarMatches(p, s[1..]);
      forall i | 0 <= i <= |s| - 1 ensures s[1..][i..] == s[i + 1..] {}
      if WildMatch(p, s[1..]) {
        var i :| 0 <= i <= |s| - 1 && WildMatch(p[1..], s[1..][i..]);
        assert WildMatch(p[1..], s[i + 1..]);
      }
      forall i | 0 < i <= |s| && WildMatch(p[1..], s[i..]) ensures WildMatch(p, s[1..]) {
        assert s[1..][i - 1..] == s[i..];
      }
    }
  }

  /** A suffix filter's pattern matches exactly the strings that end with the
      value, whatever characters the value holds. */
  lemma SuffixPattern(v: string, s: string)
    ensures WildMatch("*" + Escape(v), s) <==> EndsWith(s, v)
  {
    var p := "*" + Escape(v);
    StarMatches(p, s);
    assert p[1..] == Escape(v) + "";
    forall i | 0 <= i <= |s| ensures WildMatch(p[1..], s[i..]) <==> s[i..] == v {
      EscapeMatches(v, "", s[i..]);
      if StartsWith(s[i..], v) && s[i..][|v|..] == "" { assert s[i..] == s[i..][..|v|] + s[i..][|v|..]; }
    }
  }

  lemma StarTail(s: string)
    ensures WildMatch("*", s)
    decreases |s|
  {
    if s != "" { StarTail(s[1..]); }
  }

  /** A contains filter's pattern matches exactly the strings that hold the
      value. */
  lemma ContainsPattern(v: string, s: string)
    ensures WildMatch("*" + Escape(v) + "*", s) <==> Holds(s, v)
  {
    var p := "*" + Escape(v) + "*";
    StarMatches(p, s);
    assert p[1..] == Escape(v) + "*";
    forall i | 0 <= i <= |s| ensures WildMatch(p[1..], s[i..]) <==> StartsWith(s[i..], v) {
      EscapeMatches(v, "*", s[i..]);
      if StartsWith(s[i..], v) { StarTail(s[i..][|v|..]); }
    }
  }

  // ----------------------------------------------------------------- compiling

  /** buildOpClause: the positive form of a filter's op. */
  function OpClause(f: Filter): Result<Clause> {
    match f.op
    case Eq => if f.value == "" then Err else Ok(Term(f.field, f.value))
    case Neq => if f.value == "" then Err else Ok(Term(f.field, f.value))
    case In => if f.values == [] then Err else Ok(Terms(f.field, f.values))
    case NotIn => if f.values == [] then Err else Ok(Terms(f.field, f.values))
    case Gt => if f.value == "" then Err else Ok(Range(f.field, KeyGt, f.value))
    case Gte => if f.value == "" then Err else Ok(Range(f.field, KeyGte, f.value))
    case Lt => if f.value == "" then Err else Ok(Range(f.field, KeyLt, f.value))
    case Lte => if f.value == "" then Err else Ok(Range(f.field, KeyLte, f.value))
    case PrefixOf => if f.value == "" then Err else Ok(Prefix(f.field, f.value))
    case SuffixOf => if f.value == "" then Err else Ok(Wildcard(f.field, "*" + Escape(f.value)))
    case Contains => if f.value == "" then Err else Ok(Wildcard(f.field, "*" + Escape(f.value) + "*"))
    case Exists => Ok(HasField(f.field))
    case NotExists => Ok(HasField(f.field))
    case Unknown => Err
  }

  /** buildFilterClause: nested first, negation around it. */
  function FilterClause(f: Filter): Result<Clause> {
    var op := OpClause(f);
    if op.Err? then Err
    else
      var inner := if f.path == "" then op.value else Nested(f.path, op.value);
      Ok(if IsNegation(f.op) then Bool([], [inner]) else inner)
  }

  lemma OpMeans(en: Engine, d: Doc, f: Filter)
    ensures OpClause(f).Err? <==> Invalid(f)
    ensures OpClause(f).Ok? ==> (Matches(en, d, OpClause(f).value) <==> Positive(en, Values(d.fields, f.field), f))
  {
    var vs := Values(d.fields, f.field);
    if f.op == SuffixOf {
      forall v | v in vs
        ensures WildMatch("*" + Escape(f.value), v) <==> EndsWith(v, f.value)
      {
        SuffixPattern(f.value, v);
      }
    }
    if f.op == Contains {
      forall v | v in vs
        ensures WildMatch("*" + Escape(f.value) + "*", v) <==> Holds(v, f.value)
      {
        ContainsPattern(f.value, v);
      }
    }
  }

  /** A filter's clause holds exactly of the documents the filter means. */
  lemma FilterMeans(en: Engine, d: Doc, f: Filter)
    ensures FilterClause(f).Err? <==> Invalid(f)
    ensures FilterClause(f).Ok? ==> (Matches(en, d, FilterClause(f).value) <==> FilterHolds(en, d, f))
  {
    OpMeans(en, d, f);
    if FilterClause(f).Ok? {
      var op := OpClause(f).value;
      forall e | e in Entries(d, f.path)
        ensures Matches(en, EntryDoc(d, e), op) <==> Positive(en, Values(e, f.field), f)
      {
        OpMeans(en, EntryDoc(d, e), f);
      }
      var inner := if f.path == "" then op else Nested(f.path, op);
      if IsNegation(f.op) {
        assert Matches(en, d, Bool([], [inner])) <==> !Matches(en, d, inner) by { assert inner in [inner]; }
      }
    }
  }

  /** A negation is refused where its positive counterpart is, and holds exactly
      of the documents the counterpart does not: on a nested path the negation
      goes around the whole block. */
  lemma NegationMeans(en: Engine, d: Doc, f: Filter)
    ensures FilterClause(f.(op := Neq)).Err? <==> FilterClause(f.(op := Eq)).Err?
    ensures FilterClause(f.(op := NotIn)).Err? <==> FilterClause(f.(op := In)).Err?
    ensures FilterClause(f.(op := NotExists)).Ok? && FilterClause(f.(op := Exists)).Ok?
    ensures FilterClause(f.(op := Neq)).Ok? ==>
      (Matches(en, d, FilterClause(f.(op := Neq)).value) <==> !Matches(en, d, FilterClause(f.(op := Eq)).value))
    ensures FilterClause(f.(op := NotIn)).Ok? ==>
      (Matches(en, d, FilterClause(f.(op := NotIn)).value) <==> !Matches(en, d, FilterClause(f.(op := In)).value))
    ensures Matches(en, d, FilterClause(f.(op := NotExists)).value) <==>
      !Matches(en, d, FilterClause(f.(op := Exists)).value)
  {
    hide Matches;
    FilterMeans(en, d, f.(op := Neq));
    FilterMeans(en, d, f.(op := Eq));
    FilterMeans(en, d, f.(op := NotIn));
    FilterMeans(en, d, f.(op := In));
    FilterMeans(en, d, f.(op := NotExists));
    FilterMeans(en, d, f.(op := Exists));
  }

  // ------------------------------------------------------------- scoped blocks

  /** strings.Cut at the first dot; the whole string when there is none. */
  function Head(field: string): (h: string) {
    if field == "" || field[0] == '.' then "" else [field[0]] + Head(field[1..])
  }

  /** The field is of the scoped block: what is before its first dot is the
      block's name. */
  ghost predicate FieldOf(field: string, name: string) {
    |name| < |field| && field[..|name|] == name && field[|name|] == '.' && '.' !in name
  }

  lemma {:induction false} HeadIs(field: string, name: string)
    ensures FieldOf(field, name) <==> '.' in field && Head(field) == name
  {
    if field != "" && field[0] != '.' {
      if name != "" {
        HeadIs(field[1..], name[1..]);
        assert FieldOf(field, name) <==> field[0] == name[0] && FieldOf(field[1..], name[1..]) by {
          FieldRest(field, name);
        }
        assert name == [name[0]] + name[1..];
      }
      assert '.' in field <==> '.' in field[1..];
    }
  }

  lemma FieldRest(field: string, name: string)
    requires field != "" && name != "" && field[0] != '.'
    ensures FieldOf(field, name) <==> field[0] == name[0] && FieldOf(field[1..], name[1..])
  {
    assert name == [name[0]] + name[1..];
    if FieldOf(field, name) {
      assert field[1..][..|name| - 1] == field[..|name|][1..];
      assert field[..|name|][0] == field[0];
    }
    if field[0] == name[0] && FieldOf(field[1..], name[1..]) {
      assert field[..|name|] == [field[0]] + field[1..][..|name| - 1];
    }
  }

  /** The scoped block a filter targets. */
  ghost predicate Targets(f: Filter, name: string) {
    FieldOf(f.field, name)
  }

  ghost predicate Scoped(f: Filter, scoped: seq<Block>) {
    exists b :: b in scoped && Targets(f, b.name)
  }

  /** What the filters of one Type mean under its scoped blocks: every filter
      elsewhere holds of the document, and each scoped block has one entry that
      carries the caller's scope and satisfies every filter on that block. */
  ghost predicate ScopedMeaning(en: Engine, d: Doc, filters: seq<Filter>, scoped: seq<Block>, scope: string) {
    && (forall f :: f in filters && f.field != "" && !Scoped(f, scoped) ==> FilterHolds(en, d, f))
    && (forall b ::
          b in scoped ==> scope != "" && exists e :: e in Entries(d, b.name) && EntryServes(en, e, b, filters, scope))
  }

  ghost predicate EntryServes(en: Engine, e: Fields, b: Block, filters: seq<Filter>, scope: string) {
    && scope in Values(e, b.name + "." + b.scopeKey)
    && forall f :: f in filters && f.field != "" && Targets(f, b.name) ==> EntryHolds(en, e, f)
  }

  /** The filters the compiler refuses: with no scope the filters of a scoped
      block are not even compiled. */
  ghost predicate Refuses(filters: seq<Filter>, scoped: seq<Block>, scope: string) {
    exists f :: f in filters && f.field != "" && Invalid(f) && (Scoped(f, scoped) ==> scope != "")
  }

  /** scopedBlockFor. */
  method ScopedBlockFor(scoped: seq<Block>, field: string) returns (b: Option<Block>)
    ensures b.None? <==> !(exists k :: k in scoped && FieldOf(field, k.name))
    ensures b.Some? ==> b.value in scoped && FieldOf(field, b.value.name)
  {
    hide FieldOf;
    forall k | k in scoped ensures FieldOf(field, k.name) <==> '.' in field && Head(field) == k.name {
      HeadIs(field, k.name);
    }
    b := None;
    if '.' !in field {
      return;
    }
    for i := 0 to |scoped|
      invariant forall k :: k in scoped[..i] ==> k.name != Head(field)
    {
      if scoped[i].name == Head(field) {
        return Some(scoped[i]);
      }
    }
    assert scoped[..|scoped|] == scoped;
  }

  ghost predicate ListServes(en: Engine, e: Fields, b: Block, filters: seq<Filter>, scope: string) {
    scope in Values(e, b.name + "." + b.scopeKey) && forall f :: f in filters ==> EntryHolds(en, e, f)
  }

  /** What a compiled block holds: the filters listed for it, on one entry. */
  ghost predicate BlockMeaning(en: Engine, d: Doc, b: Block, scope: string, filters: seq<Filter>) {
    scope != "" && exists e :: e in Entries(d, b.name) && ListServes(en, e, b, filters, scope)
  }

  /** buildScopedNestedClause: one correlated nested clause for one block. */
  method ScopedNestedClause(en: Engine, b: Block, scope: string, filters: seq<Filter>) returns (r: Result<Clause>)
    ensures r.Err? <==> scope != "" && exists f :: f in filters && Invalid(f)
    ensures r.Ok? ==> forall d :: Matches(en, d, r.value) <==> BlockMeaning(en, d, b, scope, filters)
  {
    if scope == "" {
      return Ok(MatchNone);
    }
    var term := Term(b.name + "." + b.scopeKey, scope);
    var must := [term];
    assert forall d :: MatchesAll(en, d, must) <==> Matches(en, d, term) by { assert term in must; }
    for i := 0 to |filters|
      invariant forall f :: f in filters[..i] ==> !Invalid(f)
      invariant forall d :: MatchesAll(en, d, must) <==> ListServes(en, d.fields, b, filters[..i], scope)
    {
      var bare := filters[i].(path := "");
      var clause := FilterClause(bare);
      forall d ensures clause.Err? <==> Invalid(filters[i])
        ensures clause.Ok? ==> (Matches(en, d, clause.value) <==> EntryHolds(en, d.fields, filters[i]))
      {
        BareMeans(en, d, filters[i]);
      }
      var anyDoc := Doc("", "", map[], map[]);
      FilterMeans(en, anyDoc, bare);
      if clause.Err? {
        return Err;
      }
      MatchesAllAppend(en, must, clause.value);
      assert filters[..i + 1] == filters[..i] + [filters[i]];
      must := must + [clause.value];
    }
    assert filters[..|filters|] == filters;
    r := Ok(Nested(b.name, Bool(must, [])));
    forall d ensures Matches(en, d, r.value) <==> BlockMeaning(en, d, b, scope, filters) {
      NestedMeans(en, d, b, scope, filters, must);
    }
  }

  lemma BareMeans(en: Engine, d: Doc, f: Filter)
    ensures FilterClause(f.(path := "")).Err? <==> Invalid(f)
    ensures FilterClause(f.(path := "")).Ok? ==>
      (Matches(en, d, FilterClause(f.(path := "")).value) <==> EntryHolds(en, d.fields, f))
  {
    FilterMeans(en, d, f.(path := ""));
  }

  lemma NestedMeans(en: Engine, d: Doc, b: Block, scope: string, filters: seq<Filter>, must: seq<Clause>)
    requires scope != ""
    requires forall k :: MatchesAll(en, k, must) <==> ListServes(en, k.fields, b, filters, scope)
    ensures Matches(en, d, Nested(b.name, Bool(must, []))) <==> BlockMeaning(en, d, b, scope, filters)
  {
    forall e ensures Matches(en, EntryDoc(d, e), Bool(must, [])) <==> ListServes(en, e, b, filters, scope) {
      assert Matches(en, EntryDoc(d, e), Bool(must, [])) <==> MatchesAll(en, EntryDoc(d, e), must);
    }
  }

  /** buildScopedFilterClauses: a clause for every other filter, and one
      correlated clause for every scoped block, targeted or not. */
  method ScopedFilterClauses(en: Engine, filters: seq<Filter>, scoped: seq<Block>, scope: string)
    returns (r: Result<seq<Clause>>)
    ensures r.Err? <==> Refuses(filters, scoped, scope)
    ensures r.Ok? ==> forall d :: MatchesAll(en, d, r.value) <==> ScopedMeaning(en, d, filters, scoped, scope)
    ensures r.Ok? && scope == "" && scoped != [] ==> forall d :: !MatchesAll(en, d, r.value)
  {
    hide Matches, FilterHolds, EntryHolds;
    var clauses: seq<Clause> := [];
    var blockFilters: map<string, seq<Filter>> := map[];
    for i := 0 to |filters|
      invariant forall f :: f in filters[..i] && f.field != "" && !Scoped(f, scoped) ==> !Invalid(f)
      invariant forall d :: MatchesAll(en, d, clauses) <==> OthersHold(en, d, filters[..i], scoped)
      invariant forall b :: b in scoped ==> SameFilters(ListOf(blockFilters, b.name), filters[..i], b.name)
    {
      var f := filters[i];
      assert filters[..i + 1] == filters[..i] + [f];
      if f.field == "" {
        continue;
      }
      var b := ScopedBlockFor(scoped, f.field);
      if b.Some? {
        assert Scoped(f, scoped);
        blockFilters := blockFilters[b.value.name := ListOf(blockFilters, b.value.name) + [f]];
        continue;
      }
      assert !Scoped(f, scoped);
      var clause := FilterClause(f);
      forall d ensures clause.Err? <==> Invalid(f)
        ensures clause.Ok? ==> (Matches(en, d, clause.value) <==> FilterHolds(en, d, f))
      {
        FilterMeans(en, d, f);
      }
      FilterMeans(en, Doc("", "", map[], map[]), f);
      if clause.Err? {
        return Err;
      }
      MatchesAllAppend(en, clauses, clause.value);
      clauses := clauses + [clause.value];
    }
    assert filters[..|filters|] == filters;
    for i := 0 to |scoped|
      invariant scope != "" ==>
        forall b, f :: b in scoped[..i] && f in filters && f.field != "" && Targets(f, b.name) ==> !Invalid(f)
      invariant forall d ::
        MatchesAll(en, d, clauses) <==>
          OthersHold(en, d, filters, scoped) && forall b :: b in scoped[..i] ==> BlockServed(en, d, b, filters, scope)
    {
      var b := scoped[i];
      assert scoped[..i + 1] == scoped[..i] + [b] && b in scoped;
      var own := ListOf(blockFilters, b.name);
      var clause := ScopedNestedClause(en, b, scope, own);
      if clause.Err? {
        var f :| f in own && Invalid(f);
        assert f in filters && Targets(f, b.name) && Scoped(f, scoped);
        return Err;
      }
      forall d ensures Matches(en, d, clause.value) <==> BlockServed(en, d, b, filters, scope) {
        ServedByList(en, d, b, scope, own, filters);
      }
      MatchesAllAppend(en, clauses, clause.value);
      clauses := clauses + [clause.value];
    }
    assert scoped[..|scoped|] == scoped;
    r := Ok(clauses);
    if scope == "" && scoped != [] { NoneServed(en, clauses, filters, scoped); }
  }

  function ListOf(m: map<string, seq<Filter>>, name: string): seq<Filter> {
    if name in m then m[name] else []
  }

  ghost predicate SameFilters(own: seq<Filter>, filters: seq<Filter>, name: string) {
    forall f :: f in own <==> f in filters && f.field != "" && Targets(f, name)
  }

  ghost predicate OthersHold(en: Engine, d: Doc, filters: seq<Filter>, scoped: seq<Block>) {
    forall f :: f in filters && f.field != "" && !Scoped(f, scoped) ==> FilterHolds(en, d, f)
  }

  ghost predicate BlockServed(en: Engine, d: Doc, b: Block, filters: seq<Filter>, scope: string) {
    scope != "" && exists e :: e in Entries(d, b.name) && EntryServes(en, e, b, filters, scope)
  }

  lemma ServedByList(en: Engine, d: Doc, b: Block, scope: string, own: seq<Filter>, filters: seq<Filter>)
    requires SameFilters(own, filters, b.name)
    ensures BlockMeaning(en, d, b, scope, own) <==> BlockServed(en, d, b, filters, scope)
  {
    forall e ensures ListServes(en, e, b, own, scope) <==> EntryServes(en, e, b, filters, scope) {}
  }

  /** With no scope a Type that has a scoped block matches nothing. */
  lemma NoScopeMatchesNothing(en: Engine, d: Doc, filters: seq<Filter>, scoped: seq<Block>)
    requires scoped != []
    ensures !ScopedMeaning(en, d, filters, scoped, "")
  {
    assert scoped[0] in scoped;
  }

  lemma NoneServed(en: Engine, clauses: seq<Clause>, filters: seq<Filter>, scoped: seq<Block>)
    requires scoped != [] && forall d :: MatchesAll(en, d, clauses) <==> ScopedMeaning(en, d, filters, scoped, "")
    ensures forall d :: !MatchesAll(en, d, clauses)
  {
    forall d ensures !MatchesAll(en, d, clauses) { NoScopeMatchesNothing(en, d, filters, scoped); }
  }

  // -------------------------------------------------------------- federated

  /** One Type of a federated search. */
  datatype Group = Group(alias: string, matchNothing: bool, filters: seq<Filter>, scoped: seq<Block>, scope: string)

  ghost predicate GroupMeaning(en: Engine, d: Doc, g: Group) {
    ScopedMeaning(en, d, g.filters, g.scoped, g.scope)
  }

  /** What the single query's groups mean: some group of this document's index
      that is not known to match nothing holds of it. */
  ghost predicate GroupsMeaning(en: Engine, d: Doc, groups: seq<Group>) {
    exists g :: g in groups && !g.matchNothing && d.index == en.index(g.alias) && GroupMeaning(en, d, g)
  }

  ghost predicate GroupsRefuse(groups: seq<Group>) {
    exists g :: g in groups && !g.matchNothing && Refuses(g.filters, g.scoped, g.scope)
  }

  /** buildIndexFilterGroups. */
  method IndexFilterGroups(en: Engine, groups: seq<Group>) returns (r: Result<Clause>)
    ensures r.Err? <==> GroupsRefuse(groups)
    ensures r.Ok? ==> forall d :: Matches(en, d, r.value) <==> GroupsMeaning(en, d, groups)
  {
    hide ScopedMeaning, Refuses;
    var should: seq<Clause> := [];
    for i := 0 to |groups|
      invariant !GroupsRefuse(groups[..i])
      invariant forall d :: Matches(en, d, AnyOf(should)) <==> GroupsMeaning(en, d, groups[..i])
    {
      var g := groups[i];
      assert groups[..i + 1] == groups[..i] + [g] && g in groups;
      if g.matchNothing {
        AnyOfAppend(en, should, MatchNone);
        should := should + [MatchNone];
        continue;
      }
      var filters := ScopedFilterClauses(en, g.filters, g.scoped, g.scope);
      if filters.Err? {
        return Err;
      }
      var clauses := [IndexIs(g.alias)] + filters.value;
      var clause := Bool(clauses, []);
      forall d ensures Matches(en, d, clause) <==> d.index == en.index(g.alias) && GroupMeaning(en, d, g) {
        assert MatchesAll(en, d, filters.value) <==> GroupMeaning(en, d, g);
        PinnedMeans(en, d, g.alias, filters.value);
      }
      AnyOfAppend(en, should, clause);
      should := should + [clause];
    }
    assert groups[..|groups|] == groups;
    r := Ok(AnyOf(should));
  }

  lemma PinnedMeans(en: Engine, d: Doc, alias: string, cs: seq<Clause>)
    ensures Matches(en, d, Bool([IndexIs(alias)] + cs, [])) <==> d.index == en.index(alias) && MatchesAll(en, d, cs)
  {
    var all := [IndexIs(alias)] + cs;
    assert forall c :: c in all <==> c == IndexIs(alias) || c in cs;
    assert Matches(en, d, IndexIs(alias)) <==> d.index == en.index(alias);
  }

  lemma AnyOfAppend(en: Engine, cs: seq<Clause>, c: Clause)
    ensures forall d :: Matches(en, d, AnyOf(cs + [c])) <==> Matches(en, d, AnyOf(cs)) || Matches(en, d, c)
  {
    assert forall k :: k in cs + [c] <==> k in cs || k == c;
  }

  /** The request every federated execution shares: global filters, and the
      text query, none when empty. */
  datatype Search = Search(query: string, scope: string, filters: seq<Filter>, groups: seq<Group>)

  ghost predicate SharedMeaning(en: Engine, d: Doc, p: Search) {
    && (forall f :: f in p.filters && f.field != "" ==> FilterHolds(en, d, f))
    && (p.query != "" ==> en.text(p.query, p.scope, d))
  }

  ghost predicate SharedRefuse(p: Search) {
    exists f :: f in p.filters && f.field != "" && Invalid(f)
  }

  /** The clauses of the global filters. */
  method GlobalClauses(en: Engine, filters: seq<Filter>) returns (r: Result<seq<Clause>>)
    ensures r.Err? <==> exists f :: f in filters && f.field != "" && Invalid(f)
    ensures r.Ok? ==>
      forall d :: MatchesAll(en, d, r.value) <==> forall f :: f in filters && f.field != "" ==> FilterHolds(en, d, f)
  {
    hide Matches, FilterHolds;
    var clauses: seq<Clause> := [];
    for i := 0 to |filters|
      invariant forall f :: f in filters[..i] && f.field != "" ==> !Invalid(f)
      invariant forall d ::
        MatchesAll(en, d, clauses) <==> forall f :: f in filters[..i] && f.field != "" ==> FilterHolds(en, d, f)
    {
      var f := filters[i];
      assert filters[..i + 1] == filters[..i] + [f];
      if f.field == "" {
        continue;
      }
      var clause := FilterClause(f);
      forall d ensures clause.Err? <==> Invalid(f)
        ensures clause.Ok? ==> (Matches(en, d, clause.value) <==> FilterHolds(en, d, f))
      {
        FilterMeans(en, d, f);
      }
      FilterMeans(en, Doc("", "", map[], map[]), f);
      if clause.Err? {
        return Err;
      }
      MatchesAllAppend(en, clauses, clause.value);
      clauses := clauses + [clause.value];
    }
    assert filters[..|filters|] == filters;
    r := Ok(clauses);
  }

  /** A body's bool query: its filters, and the text query when there is one. */
  function BodyQuery(p: Search, filter: seq<Clause>): Clause {
    Bool((if p.query == "" then [] else [Text(p.query, p.scope)]) + filter, [])
  }

  lemma BodyMeans(en: Engine, d: Doc, p: Search, filter: seq<Clause>)
    ensures Matches(en, d, BodyQuery(p, filter)) <==>
      MatchesAll(en, d, filter) && (p.query != "" ==> en.text(p.query, p.scope, d))
  {
    var all := (if p.query == "" then [] else [Text(p.query, p.scope)]) + filter;
    assert forall c :: c in all <==> (p.query != "" && c == Text(p.query, p.scope)) || c in filter;
    assert Matches(en, d, Text(p.query, p.scope)) <==> en.text(p.query, p.scope, d);
  }

  /** The single query over every group. */
  method SingleQuery(en: Engine, p: Search) returns (r: Result<Clause>)
    ensures r.Err? <==> SharedRefuse(p) || GroupsRefuse(p.groups)
    ensures r.Ok? ==> forall d :: Matches(en, d, r.value) <==> SharedMeaning(en, d, p) && GroupsMeaning(en, d, p.groups)
  {
    hide Matches, FilterHolds, ScopedMeaning;
    var filter := GlobalClauses(en, p.filters);
    if filter.Err? {
      return Err;
    }
    var groups := IndexFilterGroups(en, p.groups);
    if groups.Err? {
      return Err;
    }
    r := Ok(BodyQuery(p, filter.value + [groups.value]));
    MatchesAllAppend(en, filter.value, groups.value);
    forall d ensures Matches(en, d, r.value) <==> SharedMeaning(en, d, p) && GroupsMeaning(en, d, p.groups) {
      BodyMeans(en, d, p, filter.value + [groups.value]);
    }
  }

  /** buildFanoutLegBody's query: one group's, with no index pinned. */
  method LegQuery(en: Engine, p: Search, g: Group, globals: seq<Clause>) returns (r: Result<Clause>)
    requires
      forall d :: MatchesAll(en, d, globals) <==> forall f :: f in p.filters && f.field != "" ==> FilterHolds(en, d, f)
    ensures r.Err? <==> Refuses(g.filters, g.scoped, g.scope)
    ensures r.Ok? ==> forall d :: Matches(en, d, r.value) <==> SharedMeaning(en, d, p) && GroupMeaning(en, d, g)
  {
    hide Matches, FilterHolds, ScopedMeaning, Refuses;
    var filters := ScopedFilterClauses(en, g.filters, g.scoped, g.scope);
    if filters.Err? {
      return Err;
    }
    r := Ok(BodyQuery(p, globals + filters.value));
    forall d ensures Matches(en, d, r.value) <==> SharedMeaning(en, d, p) && GroupMeaning(en, d, g) {
      BodyMeans(en, d, p, globals + filters.value);
      assert
        MatchesAll(en, d, globals + filters.value) <==>
          MatchesAll(en, d, globals) && MatchesAll(en, d, filters.value) by {
        assert forall c :: c in globals + filters.value <==> c in globals || c in filters.value;
      }
    }
  }

  /** For distinct Types, a document of a leg's index satisfies the leg exactly
      when it satisfies the grouped single query. */
  lemma LegAgrees(en: Engine, d: Doc, p: Search, g: Group)
    requires g in p.groups && !g.matchNothing && d.index == en.index(g.alias)
    requires forall h :: h in p.groups && en.index(h.alias) == en.index(g.alias) ==> h == g
    ensures
      SharedMeaning(en, d, p) && GroupMeaning(en, d, g) <==> SharedMeaning(en, d, p) && GroupsMeaning(en, d, p.groups)
  {
  }
}
