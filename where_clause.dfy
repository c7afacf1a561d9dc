/** `build_where_clause` of the dataset service: filter conditions and an
    optional global search become an `AND`-joined WHERE body and the positional
    parameter list its `$k` placeholders refer to. */
module WhereBuilder {
  import opened Text
  import opened Sql

  datatype Option<T> = None | Some(value: T)

  /** A JSON scalar a filter value can carry. */
  datatype Scalar = Str(s: string) | Int(i: int) | Bool(b: bool) | Null

  /** A filter value: one scalar, or a list of scalars (what `in` / `not in` take).
      It is also the type of the query parameters. */
  datatype Value = Single(x: Scalar) | List(items: seq<Scalar>)

  /** `FilterCondition`: column, operator text as the client sent it, value. */
  datatype FilterCondition = FilterCondition(column: string, operator: string, value: Value)

  /** Python's `str(x)` of a scalar, as an f-string inserts it. */
  function ScalarText(x: Scalar): string {
    match x
    case Str(s) => s
    case Int(i) => IntText(i)
    case Bool(b) => if b then "True" else "False"
    case Null => "None"
  }

  /** Python's `repr(x)` of a scalar inside a list (strings quoted, no escaping). */
  function ScalarRepr(x: Scalar): string {
    if x.Str? then "'" + x.s + "'" else ScalarText(x)
  }

  /** Python's `str(value)`. */
  function ValueText(v: Value): string {
    match v
    case Single(x) => ScalarText(x)
    case List(xs) => "[" + Join(seq(|xs|, i requires 0 <= i < |xs| => ScalarRepr(xs[i])), ", ") + "]"
  }

  /** The LIKE pattern `f"%{text}%"`. */
  function Wrap(s: string): string {
    "%" + s + "%"
  }

  /** Operator dispatch compares `operator.lower()`. */
  predicate IsInOperator(op: string) {
    Lower(op) == "in" || Lower(op) == "not in"
  }

  predicate IsLikeOperator(op: string) {
    Lower(op) == "like"
  }

  /** What `len(value)` and `params.extend(value)` see when an IN filter iterates its
      value: a list's elements, a string's characters; an int, a bool or None has no
      length, and Python raises `TypeError`. */
  function Elements(v: Value): Option<seq<Scalar>> {
    match v
    case List(xs) => Some(xs)
    case Single(x) =>
      if x.Str? then Some(seq(|x.s|, i requires 0 <= i < |x.s| => Str([x.s[i]]))) else None
  }

  /** A filter the loop gets through: its operator is not IN, or its value can be iterated. */
  predicate Buildable(f: FilterCondition) {
    IsInOperator(f.operator) ==> Elements(f.value).Some?
  }

  /** The first `i` filters are all buildable. */
  predicate BuildableUpTo(fs: seq<FilterCondition>, i: nat) {
    i <= |fs| && forall j :: 0 <= j < i ==> Buildable(fs[j])
  }

  predicate AllBuildable(fs: seq<FilterCondition>) {
    BuildableUpTo(fs, |fs|)
  }

  /** The values an IN filter iterates. */
  function Items(f: FilterCondition): seq<Scalar>
    requires IsInOperator(f.operator) && Buildable(f)
  {
    Elements(f.value).value
  }

  /** The placeholders `$n+1`, ..., `$n+m`, one fragment each. */
  function PhList(n: nat, m: nat): seq<Sql> {
    seq(m, i requires 0 <= i < m => [Ph(n + 1 + i)])
  }

  /** The clause for one filter when `n` parameters precede it. */
  function FilterSql(f: FilterCondition, n: nat): Sql
    requires Buildable(f)
  {
    if IsInOperator(f.operator) then
      [Lit(f.column + " " + f.operator + " (")] + JoinSql(PhList(n, |Items(f)|), ", ") + [Lit(")")]
    else
      [Lit(f.column + " " + f.operator + " "), Ph(n + 1)]
  }

  /** The parameters one filter appends. */
  function FilterParams(f: FilterCondition): seq<Value>
    requires Buildable(f)
  {
    if IsInOperator(f.operator) then
      seq(|Items(f)|, i requires 0 <= i < |Items(f)| => Single(Items(f)[i]))
    else if IsLikeOperator(f.operator) then
      [Single(Str(Wrap(ValueText(f.value))))]
    else
      [f.value]
  }

  /** How many parameters a filter takes: the list length for IN operators, else one. */
  function Arity(f: FilterCondition): nat
    requires Buildable(f)
  {
    if IsInOperator(f.operator) then |Items(f)| else 1
  }

  /** The sum of the filters' arities. */
  function ParamCount(fs: seq<FilterCondition>): nat
    requires AllBuildable(fs)
    decreases |fs|
  {
    if fs == [] then 0 else Arity(fs[0]) + ParamCount(fs[1..])
  }

  /** The parameters after the filter loop has run over the first `i` filters. */
  function FilterParamsAll(fs: seq<FilterCondition>, i: nat): seq<Value>
    requires BuildableUpTo(fs, i)
    decreases i
  {
    if i == 0 then [] else FilterParamsAll(fs, i - 1) + FilterParams(fs[i - 1])
  }

  /** The clauses after the filter loop has run over the first `i` filters;
      each is numbered from the running parameter count. */
  function ClauseList(fs: seq<FilterCondition>, i: nat): seq<Sql>
    requires BuildableUpTo(fs, i)
    decreases i
  {
    if i == 0 then [] else ClauseList(fs, i - 1) + [FilterSql(fs[i - 1], |FilterParamsAll(fs, i - 1)|)]
  }

  /** The text columns the global search looks in, in this order. */
  const TextColumns: seq<string> := ["name", "version", "description"]

  function SearchTerm(column: string, k: nat): Sql {
    [Lit(column + " LIKE "), Ph(k)]
  }

  /** The LIKE terms over `columns` when `n` parameters precede them. */
  function SearchTerms(columns: seq<string>, n: nat): seq<Sql> {
    seq(|columns|, j requires 0 <= j < |columns| => SearchTerm(columns[j], n + 1 + j))
  }

  /** The parenthesised OR of the LIKE terms when `n` parameters precede it. */
  function SearchSql(n: nat): Sql {
    [Lit("(")] + JoinSql(SearchTerms(TextColumns, n), " OR ") + [Lit(")")]
  }

  function SearchParams(s: string): seq<Value> {
    [Single(Str(Wrap(s))), Single(Str(Wrap(s))), Single(Str(Wrap(s)))]
  }

  /** `if global_search:` is false for `None` and for the empty string. */
  predicate SearchActive(gs: Option<string>) {
    gs.Some? && gs.value != ""
  }

  function WhereClauses(fs: seq<FilterCondition>, gs: Option<string>): seq<Sql>
    requires AllBuildable(fs)
  {
    ClauseList(fs, |fs|) + if SearchActive(gs) then [SearchSql(|FilterParamsAll(fs, |fs|)|)] else []
  }

  function WhereParams(fs: seq<FilterCondition>, gs: Option<string>): seq<Value>
    requires AllBuildable(fs)
  {
    FilterParamsAll(fs, |fs|) + if SearchActive(gs) then SearchParams(gs.value) else []
  }

  function WhereSql(fs: seq<FilterCondition>, gs: Option<string>): Sql
    requires AllBuildable(fs)
  {
    var clauses := WhereClauses(fs, gs);
    if |clauses| == 0 then [] else JoinSql(clauses, " AND ")
  }

  /** What `build_where_clause` ends in: the WHERE body and its parameters, or
      the `TypeError` raised at the first IN filter whose value has no length. */
  datatype WhereOutcome = Where(sql: Sql, params: seq<Value>) | NotIterable(filter: nat)

  /** `build_where_clause(filters, global_search)`. */
  method BuildWhereClause(filters: seq<FilterCondition>, globalSearch: Option<string>)
    returns (r: WhereOutcome)
    ensures r.NotIterable? <==> !AllBuildable(filters)
    ensures r.NotIterable? ==>
      r.filter < |filters| && !Buildable(filters[r.filter]) && BuildableUpTo(filters, r.filter)
    ensures r.Where? ==>
              && AllBuildable(filters)
              && r.sql == WhereSql(filters, globalSearch) && r.params == WhereParams(filters, globalSearch)
              && WellNumbered(r.sql, r.params)
              && |r.params| == ParamCount(filters) + if SearchActive(globalSearch) then 3 else 0
  {
    var clauses: seq<Sql> := [];
    var params: seq<Value> := [];
    var i := 0;
    while i < |filters|
      invariant BuildableUpTo(filters, i)
      invariant clauses == ClauseList(filters, i)
      invariant params == FilterParamsAll(filters, i)
    {
      if !Buildable(filters[i]) {
        return NotIterable(i);
      }
      clauses, params := AddFilter(clauses, params, filters[i]);
      i := i + 1;
    }

    if globalSearch.Some? && globalSearch.value != "" {
      clauses, params := AddGlobalSearch(clauses, params, globalSearch.value);
    }

    assert clauses == WhereClauses(filters, globalSearch);
    assert params == WhereParams(filters, globalSearch);
    var where := if |clauses| > 0 then JoinSql(clauses, " AND ") else [];
    WhereNumbered(filters, globalSearch);
    WhereParamCount(filters, globalSearch);
    return Where(where, params);
  }

  /** The global-search block of `build_where_clause`: one LIKE term and one
      `%search%` parameter per text column, the terms OR-ed in parentheses. */
  method AddGlobalSearch(clauses: seq<Sql>, params: seq<Value>, search: string)
    returns (newClauses: seq<Sql>, newParams: seq<Value>)
    ensures newClauses == clauses + [SearchSql(|params|)]
    ensures newParams == params + SearchParams(search)
  {
    var n := |params|;
    newParams := params;
    var searchClauses: seq<Sql> := [];
    var j := 0;
    while j < |TextColumns|
      invariant 0 <= j <= |TextColumns|
      invariant |newParams| == n + j
      invariant newParams == params + SearchParams(search)[..j]
      invariant searchClauses == seq(j, k requires 0 <= k < j => SearchTerm(TextColumns[k], n + 1 + k))
    {
      searchClauses := searchClauses + [[Lit(TextColumns[j] + " LIKE "), Ph(|newParams| + 1)]];
      newParams := newParams + [Single(Str("%" + search + "%"))];
      j := j + 1;
    }
    assert searchClauses == SearchTerms(TextColumns, n);
    newClauses := clauses + [[Lit("(")] + JoinSql(searchClauses, " OR ") + [Lit(")")]];
  }

  /** One round of the filter loop of `build_where_clause`: the operator,
      lower-cased, picks the clause shape and the parameters appended. The
      round for an IN filter whose value has no length raises `TypeError`
      at `len(filter.value)`; the loop above stops there. */
  method AddFilter(clauses: seq<Sql>, params: seq<Value>, f: FilterCondition)
    returns (newClauses: seq<Sql>, newParams: seq<Value>)
    requires Buildable(f)
    ensures newClauses == clauses + [FilterSql(f, |params|)]
    ensures newParams == params + FilterParams(f)
  {
    if Lower(f.operator) == "in" || Lower(f.operator) == "not in" {
      var items := Elements(f.value).value;
      var placeholders := seq(|items|, k requires 0 <= k < |items| => [Ph(|params| + 1 + k)]);
      assert placeholders == PhList(|params|, |items|);
      newClauses := clauses + [[Lit(f.column + " " + f.operator + " (")] + JoinSql(placeholders, ", ") + [Lit(")")]];
      newParams := params + seq(|items|, k requires 0 <= k < |items| => Single(items[k]));
    } else if Lower(f.operator) == "like" {
      newClauses := clauses + [[Lit(f.column + " " + f.operator + " "), Ph(|params| + 1)]];
      newParams := params + [Single(Str("%" + ValueText(f.value) + "%"))];
    } else {
      newClauses := clauses + [[Lit(f.column + " " + f.operator + " "), Ph(|params| + 1)]];
      newParams := params + [f.value];
    }
  }

  // ---------------------------------------------------------------------------
  // Counting parameters

  lemma {:induction false} ParamCountSnoc(fs: seq<FilterCondition>, f: FilterCondition)
    requires AllBuildable(fs) && Buildable(f)
    ensures AllBuildable(fs + [f])
    ensures ParamCount(fs + [f]) == ParamCount(fs) + Arity(f)
    decreases |fs|
  {
    assert forall i :: 0 <= i < |fs| ==> fs[i] == (fs + [f])[i];
    if fs == [] {
      assert [f][1..] == [];
    } else {
      assert (fs + [f])[1..] == fs[1..] + [f];
      ParamCountSnoc(fs[1..], f);
    }
  }

  lemma FilterParamsArity(f: FilterCondition)
    requires Buildable(f)
    ensures |FilterParams(f)| == Arity(f)
  {
  }

  /** The filter loop appends exactly `ParamCount` parameters for the filters it has run over. */
  lemma {:induction false} FilterParamsCount(fs: seq<FilterCondition>, i: nat)
    requires BuildableUpTo(fs, i)
    ensures AllBuildable(fs[..i])
    ensures |FilterParamsAll(fs, i)| == ParamCount(fs[..i])
    decreases i
  {
    if i > 0 {
      FilterParamsCount(fs, i - 1);
      assert fs[..i - 1] + [fs[i - 1]] == fs[..i];
      ParamCountSnoc(fs[..i - 1], fs[i - 1]);
      FilterParamsArity(fs[i - 1]);
    }
  }

  /** The parameter count: the list length for each IN filter, one for every
      other filter, and three more when a global search is given. */
  lemma WhereParamCount(fs: seq<FilterCondition>, gs: Option<string>)
    requires AllBuildable(fs)
    ensures |WhereParams(fs, gs)| == ParamCount(fs) + if SearchActive(gs) then 3 else 0
  {
    FilterParamsCount(fs, |fs|);
    assert fs[..|fs|] == fs;
  }

  // ---------------------------------------------------------------------------
  // Placeholder numbering

  lemma {:induction false} PhListNumbered(n: nat, m: nat)
    ensures AllPlaceholders(PhList(n, m)) == Consecutive(n + 1, m)
    decreases m
  {
    if m > 0 {
      assert PhList(n, m)[1..] == PhList(n + 1, m - 1);
      PhListNumbered(n + 1, m - 1);
      assert Placeholders([Ph(n + 1)]) == [n + 1];
      ConsecutiveSplit(n + 1, 1, m - 1);
    }
  }

  /** The clause of a filter preceded by `n` parameters uses `$n+1` .. `$n+arity`. */
  lemma FilterSqlNumbered(f: FilterCondition, n: nat)
    requires Buildable(f)
    ensures Placeholders(FilterSql(f, n)) == Consecutive(n + 1, Arity(f))
  {
    if IsInOperator(f.operator) {
      var a := [Lit(f.column + " " + f.operator + " (")];
      var b := JoinSql(PhList(n, |Items(f)|), ", ");
      PlaceholdersAppend(a + b, [Lit(")")]);
      PlaceholdersAppend(a, b);
      JoinPlaceholders(PhList(n, |Items(f)|), ", ");
      PhListNumbered(n, |Items(f)|);
    } else {
      PairPieces(Lit(f.column + " " + f.operator + " "), Ph(n + 1));
      OnePiece(Ph(n + 1));
    }
  }

  /** The clauses of the first `i` filters together use `$1` .. `$n`, in order,
      where `n` is the number of parameters they take. */
  lemma {:induction false} ClauseListNumbered(fs: seq<FilterCondition>, i: nat)
    requires BuildableUpTo(fs, i)
    ensures AllPlaceholders(ClauseList(fs, i)) == Consecutive(1, |FilterParamsAll(fs, i)|)
    decreases i
  {
    if i > 0 {
      var f, n := fs[i - 1], |FilterParamsAll(fs, i - 1)|;
      assert ClauseList(fs, i) == ClauseList(fs, i - 1) + [FilterSql(f, n)];
      assert |FilterParamsAll(fs, i)| == n + Arity(f) by {
        FilterParamsArity(f);
      }
      ClauseListNumbered(fs, i - 1);
      AllPlaceholdersSnoc(ClauseList(fs, i - 1), FilterSql(f, n));
      FilterSqlNumbered(f, n);
      ConsecutiveSplit(1, n, Arity(f));
    }
  }

  /** The global-search clause preceded by `n` parameters uses `$n+1`, `$n+2`, `$n+3`. */
  lemma {:induction false} SearchTermsNumbered(columns: seq<string>, n: nat)
    ensures AllPlaceholders(SearchTerms(columns, n)) == Consecutive(n + 1, |columns|)
    decreases |columns|
  {
    if columns != [] {
      var terms := SearchTerms(columns, n);
      assert terms[1..] == SearchTerms(columns[1..], n + 1);
      assert AllPlaceholders(terms) == Placeholders(terms[0]) + AllPlaceholders(terms[1..]);
      SearchTermsNumbered(columns[1..], n + 1);
      SearchTermPlaceholders(columns[0], n + 1);
      ConsecutiveSplit(n + 1, 1, |columns| - 1);
      assert Consecutive(n + 1, 1) == [n + 1];
    }
  }

  lemma SearchSqlNumbered(n: nat)
    ensures Placeholders(SearchSql(n)) == Consecutive(n + 1, 3)
  {
    var b := JoinSql(SearchTerms(TextColumns, n), " OR ");
    PlaceholdersAppend([Lit("(")] + b, [Lit(")")]);
    PlaceholdersAppend([Lit("(")], b);
    OnePiece(Lit("("));
    OnePiece(Lit(")"));
    JoinPlaceholders(SearchTerms(TextColumns, n), " OR ");
    SearchTermsNumbered(TextColumns, n);
  }

  /** The texts `name LIKE $n+1`, `version LIKE $n+2`, `description LIKE $n+3`. */
  function SearchTermTexts(n: nat): seq<string> {
    seq(|TextColumns|, j requires 0 <= j < |TextColumns| => TextColumns[j] + " LIKE $" + Decimal(n + 1 + j))
  }

  /** The global-search clause: `(name LIKE $n+1 OR version LIKE $n+2 OR description LIKE $n+3)`. */
  lemma SearchText(n: nat)
    ensures Render(SearchSql(n)) == "(" + Join(SearchTermTexts(n), " OR ") + ")"
  {
    var terms := SearchTerms(TextColumns, n);
    var b := JoinSql(terms, " OR ");
    RenderAppend([Lit("(")] + b, [Lit(")")]);
    RenderAppend([Lit("(")], b);
    OnePiece(Lit("("));
    OnePiece(Lit(")"));
    JoinRender(terms, " OR ");
    forall j | 0 <= j < |TextColumns| ensures RenderAll(terms)[j] == SearchTermTexts(n)[j] {
      SearchTermText(TextColumns[j], n + 1 + j);
    }
    assert RenderAll(terms) == SearchTermTexts(n);
  }

  lemma SearchTermPlaceholders(column: string, k: nat)
    ensures Placeholders(SearchTerm(column, k)) == [k]
  {
    PairPieces(Lit(column + " LIKE "), Ph(k));
    OnePiece(Ph(k));
  }

  lemma SearchTermText(column: string, k: nat)
    ensures Render(SearchTerm(column, k)) == column + " LIKE $" + Decimal(k)
  {
    PairPieces(Lit(column + " LIKE "), Ph(k));
    OnePiece(Ph(k));
    assert (column + " LIKE ") + ("$" + Decimal(k)) == column + " LIKE $" + Decimal(k);
  }

  /** The central invariant: the WHERE body's placeholders are `$1` .. `$n` in
      clause order, with `n` the length of the parameter list. */
  lemma WhereNumbered(fs: seq<FilterCondition>, gs: Option<string>)
    requires AllBuildable(fs)
    ensures WellNumbered(WhereSql(fs, gs), WhereParams(fs, gs))
  {
    var clauses := WhereClauses(fs, gs);
    var n := |FilterParamsAll(fs, |fs|)|;
    ClauseListNumbered(fs, |fs|);
    if SearchActive(gs) {
      AllPlaceholdersSnoc(ClauseList(fs, |fs|), SearchSql(n));
      SearchSqlNumbered(n);
      ConsecutiveSplit(1, n, 3);
      assert AllPlaceholders(clauses) == Consecutive(1, n + 3);
    } else {
      assert clauses == ClauseList(fs, |fs|);
      assert WhereParams(fs, gs) == FilterParamsAll(fs, |fs|);
    }
    if |clauses| > 0 {
      JoinPlaceholders(clauses, " AND ");
    } else {
      assert fs == [];
    }
  }

  // ---------------------------------------------------------------------------
  // Shape of the clauses

  /** There is one clause per filter, in input order, each numbered from the
      parameters of the filters before it, then the global-search clause last;
      the WHERE body joins them with " AND ". */
  lemma {:induction false} WhereClausesInOrder(fs: seq<FilterCondition>, gs: Option<string>)
    requires AllBuildable(fs)
    ensures |WhereClauses(fs, gs)| == |fs| + if SearchActive(gs) then 1 else 0
    ensures forall i {:trigger WhereClauses(fs, gs)[i]} :: 0 <= i < |fs| ==>
              WhereClauses(fs, gs)[i] == FilterSql(fs[i], ParamCount(fs[..i]))
    ensures SearchActive(gs) ==> WhereClauses(fs, gs)[|fs|] == SearchSql(ParamCount(fs))
    ensures WhereSql(fs, gs) == JoinSql(WhereClauses(fs, gs), " AND ")
  {
    ClauseListInOrder(fs, |fs|);
    forall i | 0 <= i < |fs| ensures WhereClauses(fs, gs)[i] == FilterSql(fs[i], ParamCount(fs[..i])) {
      FilterParamsCount(fs, i);
    }
    FilterParamsCount(fs, |fs|);
    assert fs[..|fs|] == fs;
  }

  lemma {:induction false} ClauseListInOrder(fs: seq<FilterCondition>, i: nat)
    requires BuildableUpTo(fs, i)
    ensures |ClauseList(fs, i)| == i
    ensures forall j {:trigger ClauseList(fs, i)[j]} :: 0 <= j < i ==>
              ClauseList(fs, i)[j] == FilterSql(fs[j], |FilterParamsAll(fs, j)|)
    decreases i
  {
    if i > 0 {
      ClauseListInOrder(fs, i - 1);
      var prev, last := ClauseList(fs, i - 1), FilterSql(fs[i - 1], |FilterParamsAll(fs, i - 1)|);
      assert ClauseList(fs, i) == prev + [last];
      forall j | 0 <= j < i ensures ClauseList(fs, i)[j] == FilterSql(fs[j], |FilterParamsAll(fs, j)|) {
        if j < i - 1 {
          assert (prev + [last])[j] == prev[j];
        }
      }
    }
  }

  /** The parameters of the first `i` filters begin the parameters of the first `k >= i`. */
  lemma {:induction false} FilterParamsPrefix(fs: seq<FilterCondition>, i: nat, k: nat)
    requires BuildableUpTo(fs, k) && i <= k
    ensures |FilterParamsAll(fs, i)| <= |FilterParamsAll(fs, k)|
    ensures FilterParamsAll(fs, k)[..|FilterParamsAll(fs, i)|] == FilterParamsAll(fs, i)
    decreases k
  {
    if i < k {
      FilterParamsPrefix(fs, i, k - 1);
      var p, b, q := FilterParamsAll(fs, k - 1), FilterParamsAll(fs, i), FilterParams(fs[k - 1]);
      assert FilterParamsAll(fs, k) == p + q;
      PrefixOfAppend(p, q, |b|);
    } else {
      TakeAll(FilterParamsAll(fs, k));
    }
  }

  lemma PrefixOfAppend<T>(p: seq<T>, q: seq<T>, n: nat)
    requires n <= |p|
    ensures (p + q)[..n] == p[..n]
  {
  }

  lemma TakeAll<T>(s: seq<T>)
    ensures s[..|s|] == s
  {
  }

  /** The parameters of filter `i` sit right after those of the filters before it. */
  lemma FilterParamsInOrder(fs: seq<FilterCondition>, i: nat)
    requires AllBuildable(fs) && i < |fs|
    ensures ParamCount(fs[..i]) + Arity(fs[i]) <= |FilterParamsAll(fs, |fs|)|
    ensures FilterParamsAll(fs, |fs|)[ParamCount(fs[..i])..ParamCount(fs[..i]) + Arity(fs[i])] == FilterParams(fs[i])
  {
    FilterParamsCount(fs, i);
    FilterParamsArity(fs[i]);
    FilterParamsPrefix(fs, i + 1, |fs|);
    var all, before, upTo := FilterParamsAll(fs, |fs|), FilterParamsAll(fs, i), FilterParamsAll(fs, i + 1);
    assert upTo == before + FilterParams(fs[i]);
    assert all[|before|..|upTo|] == upTo[|before|..];
  }

  /** The binding the numbering exists for: filter `i`'s clause in the WHERE body
      holds the placeholders `$p+1 .. $p+a`, where `p` counts the parameters of the
      filters before it and `a` is its arity, and `params[p .. p+a]` of the returned
      parameters are exactly that filter's values. So each `$k` in its clause
      names one of its own parameters, `params[k-1]`. */
  lemma FilterBinding(fs: seq<FilterCondition>, gs: Option<string>, i: nat)
    requires AllBuildable(fs) && i < |fs|
    ensures var p, a := ParamCount(fs[..i]), Arity(fs[i]);
      && i < |WhereClauses(fs, gs)|
      && Placeholders(WhereClauses(fs, gs)[i]) == Consecutive(p + 1, a)
      && p + a <= |WhereParams(fs, gs)|
      && WhereParams(fs, gs)[p..p + a] == FilterParams(fs[i])
  {
    WhereClausesInOrder(fs, gs);
    FilterSqlNumbered(fs[i], ParamCount(fs[..i]));
    WhereParamsInOrder(fs, gs, i);
  }

  /** `FilterParamsInOrder` carried over to the returned parameters. */
  lemma WhereParamsInOrder(fs: seq<FilterCondition>, gs: Option<string>, i: nat)
    requires AllBuildable(fs) && i < |fs|
    ensures ParamCount(fs[..i]) + Arity(fs[i]) <= |WhereParams(fs, gs)|
    ensures WhereParams(fs, gs)[ParamCount(fs[..i])..ParamCount(fs[..i]) + Arity(fs[i])] == FilterParams(fs[i])
  {
    FilterParamsInOrder(fs, i);
    SliceOfAppend(FilterParamsAll(fs, |fs|), if SearchActive(gs) then SearchParams(gs.value) else [],
      ParamCount(fs[..i]), ParamCount(fs[..i]) + Arity(fs[i]));
  }

  lemma SliceOfAppend<T>(p: seq<T>, q: seq<T>, lo: nat, hi: nat)
    requires lo <= hi <= |p|
    ensures (p + q)[lo..hi] == p[lo..hi]
  {
  }

  lemma SearchParamsLast(fs: seq<FilterCondition>, gs: Option<string>)
    requires AllBuildable(fs) && SearchActive(gs)
    ensures |WhereParams(fs, gs)| == ParamCount(fs) + 3
    ensures forall k :: ParamCount(fs) <= k < ParamCount(fs) + 3 ==>
      WhereParams(fs, gs)[k] == Single(Str("%" + gs.value + "%"))
  {
    FilterParamsCount(fs, |fs|);
    assert fs[..|fs|] == fs;
  }

  /** No WHERE body (and no parameter) exactly when there are no filters and
      the global search is absent or empty. */
  lemma WhereEmpty(fs: seq<FilterCondition>, gs: Option<string>)
    requires AllBuildable(fs)
    ensures Render(WhereSql(fs, gs)) == "" <==> fs == [] && !SearchActive(gs)
    ensures fs == [] && !SearchActive(gs) ==> WhereSql(fs, gs) == [] && WhereParams(fs, gs) == []
  {
    var clauses := WhereClauses(fs, gs);
    WhereClausesInOrder(fs, gs);
    if |clauses| > 0 {
      JoinRender(clauses, " AND ");
      JoinNonEmpty(RenderAll(clauses), " AND ");
      if fs != [] {
        assert clauses[0] == FilterSql(fs[0], ParamCount(fs[..0]));
        assert clauses[0][0].Lit? && clauses[0][0].text != "";
      } else {
        assert clauses[0] == SearchSql(ParamCount(fs));
      }
      assert Render(clauses[0]) != "";
    }
  }

  lemma JoinNonEmpty(parts: seq<string>, sep: string)
    requires |parts| > 0 && parts[0] != ""
    ensures Join(parts, sep) != ""
  {
  }

  // ---------------------------------------------------------------------------
  // The text of each clause

  /** A non-IN filter renders as `column operator $n+1`, with the operator
      text exactly as given; `like` passes `%value%`, any other operator the
      value itself. */
  lemma ScalarFilterText(f: FilterCondition, n: nat)
    requires !IsInOperator(f.operator)
    ensures Render(FilterSql(f, n)) == f.column + " " + f.operator + " $" + Decimal(n + 1)
    ensures IsLikeOperator(f.operator) ==> FilterParams(f) == [Single(Str("%" + ValueText(f.value) + "%"))]
    ensures !IsLikeOperator(f.operator) ==> FilterParams(f) == [f.value]
  {
    var head := f.column + " " + f.operator;
    PairPieces(Lit(head + " "), Ph(n + 1));
    assert (head + " ") + ("$" + Decimal(n + 1)) == head + " $" + Decimal(n + 1);
  }

  /** The texts `$n+1`, ..., `$n+m`. */
  function PlaceholderTexts(n: nat, m: nat): seq<string> {
    seq(m, i requires 0 <= i < m => "$" + Decimal(n + 1 + i))
  }

  /** An IN filter with m values renders as `column operator ($n+1, ..., $n+m)`. */
  lemma InFilterText(f: FilterCondition, n: nat)
    requires IsInOperator(f.operator) && Buildable(f)
    ensures Render(FilterSql(f, n)) ==
      f.column + " " + f.operator + " (" + Join(PlaceholderTexts(n, |Items(f)|), ", ") + ")"
  {
    var m := |Items(f)|;
    FramedRender(f.column + " " + f.operator + " (", JoinSql(PhList(n, m), ", "), [Lit(")")]);
    OnePiece(Lit(")"));
    JoinRender(PhList(n, m), ", ");
    PhListTexts(n, m);
  }

  lemma PhListTexts(n: nat, m: nat)
    ensures RenderAll(PhList(n, m)) == PlaceholderTexts(n, m)
  {
    var parts := PhList(n, m);
    forall i | 0 <= i < m ensures RenderAll(parts)[i] == PlaceholderTexts(n, m)[i] {
      assert RenderAll(parts)[i] == Render(parts[i]);
      assert parts[i] == [Ph(n + 1 + i)];
      OnePiece(Ph(n + 1 + i));
    }
  }

  /** An IN filter passes the values it iterates, in order: a list's elements,
      or a string's characters as one-character strings. */
  lemma InFilterParams(f: FilterCondition)
    requires IsInOperator(f.operator) && Buildable(f)
    ensures f.value.List? ==> FilterParams(f) == seq(|f.value.items|, i requires 0 <= i < |f.value.items| => Single(f.value.items[i]))
    ensures f.value.Single? ==> f.value.x.Str? && |FilterParams(f)| == |f.value.x.s|
    ensures f.value.Single? ==>
              forall i {:trigger FilterParams(f)[i]} :: 0 <= i < |FilterParams(f)| ==> FilterParams(f)[i] == Single(Str([f.value.x.s[i]]))
  {
  }

  /** Dispatch looks only at the lower-cased operator: two filters whose
      operators agree after lowering take the same parameters and differ in
      their clause only by the operator text, which is copied verbatim. */
  lemma DispatchIgnoresCase(f: FilterCondition, g: FilterCondition, n: nat)
    requires f.column == g.column && f.value == g.value && Lower(f.operator) == Lower(g.operator)
    requires Buildable(f)
    ensures FilterParams(f) == FilterParams(g)
    ensures Placeholders(FilterSql(f, n)) == Placeholders(FilterSql(g, n))
    ensures var k := |f.column| + 1 + |f.operator|;
      k <= |Render(FilterSql(f, n))| && Render(FilterSql(f, n))[..k] == f.column + " " + f.operator
    ensures Render(FilterSql(f, n))[|f.column| + 1 + |f.operator|..]
         == Render(FilterSql(g, n))[|g.column| + 1 + |g.operator|..]
  {
    FilterSqlNumbered(f, n);
    FilterSqlNumbered(g, n);
    FilterTextSplit(f, n);
    FilterTextSplit(g, n);
    var a, b, t := f.column + " " + f.operator, g.column + " " + g.operator, ClauseTail(f, n);
    assert ClauseTail(g, n) == t;
    assert (a + t)[..|a|] == a;
    assert (a + t)[|a|..] == t;
    assert (b + t)[|b|..] == t;
  }

  /** The text of a clause after its column and operator. */
  function ClauseTail(f: FilterCondition, n: nat): string
    requires Buildable(f)
  {
    if IsInOperator(f.operator) then " (" + Join(PlaceholderTexts(n, |Items(f)|), ", ") + ")"
    else " $" + Decimal(n + 1)
  }

  /** Every clause is its column, a space, its operator verbatim, then a tail
      that depends on the operator only through its lower-cased form. */
  lemma FilterTextSplit(f: FilterCondition, n: nat)
    requires Buildable(f)
    ensures Render(FilterSql(f, n)) == (f.column + " " + f.operator) + ClauseTail(f, n)
  {
    if IsInOperator(f.operator) {
      InFilterText(f, n);
      Reassociate(f.column + " " + f.operator, " (", Join(PlaceholderTexts(n, |Items(f)|), ", "), ")");
    } else {
      ScalarFilterText(f, n);
      ReassociateThree(f.column + " " + f.operator, " $", Decimal(n + 1));
    }
  }

  lemma Reassociate(a: string, b: string, c: string, d: string)
    ensures a + b + c + d == a + (b + c + d)
  {
  }

  lemma ReassociateThree(a: string, b: string, c: string)
    ensures a + b + c == a + (b + c)
  {
  }
}
