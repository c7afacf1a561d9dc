/** The pure part of the `/data` handler (`get_data`): the data query and the
    count query, each with the parameter list handed to the database. */
module DataQuery {
  import opened Text
  import opened Sql
  import opened WhereBuilder
  import opened OrderBuilder

  /** `DataRequest`: pagination, filters, sorts and the optional global search. */
  datatype DataRequest = DataRequest(
    offset: int,
    limit: int,
    filters: seq<FilterCondition>,
    sorts: seq<SortCondition>,
    globalSearch: Option<string>)

  /** A SQL statement with its positional parameters. */
  datatype Statement = Statement(sql: Sql, params: seq<Value>)

  /** The indentation of the handler's triple-quoted query text. */
  const Indent: string := "            "

  const SelectHead: string :=
    "\n" + Indent + "SELECT id, name, version, created_at, description, country, count, parent\n"
    + Indent + "FROM items\n" + Indent

  const CountHead: string := "\n" + Indent + "SELECT COUNT(*) \n" + Indent + "FROM items\n" + Indent

  const QueryEnd: string := "\n        "

  /** `f'WHERE {where_clause}' if where_clause else ''`. */
  function WhereSection(where: Sql): Sql {
    if Render(where) != "" then [Lit("WHERE ")] + where else []
  }

  /** The data query around a WHERE body with `|whereParams|` parameters:
      LIMIT and OFFSET take the next two placeholders and the values `limit`, `offset`. */
  function SelectFor(where: Sql, whereParams: seq<Value>, order: string, limit: int, offset: int): Statement {
    var n := |whereParams|;
    Statement(
      [Lit(SelectHead)] + WhereSection(where) + LimitOffset(order, n),
      whereParams + [Single(Int(limit)), Single(Int(offset))])
  }

  /** `ORDER BY {order_clause}` and `LIMIT $n+1 OFFSET $n+2` with the text around them. */
  function LimitOffset(order: string, n: nat): Sql {
    [Lit(OrderPrefix(order)), Ph(n + 1)] + [Lit(" OFFSET "), Ph(n + 2)] + [Lit(QueryEnd)]
  }

  /** The rendering of `LimitOffset`: the ORDER BY body, then `LIMIT $n+1 OFFSET $n+2`. */
  function LimitOffsetText(order: string, n: nat): string {
    OrderPrefix(order) + PieceText(Ph(n + 1)) + " OFFSET " + PieceText(Ph(n + 2)) + QueryEnd
  }

  /** The text between the WHERE section and the LIMIT placeholder. */
  function OrderPrefix(order: string): string {
    "\n" + Indent + "ORDER BY " + order + "\n" + Indent + "LIMIT "
  }

  /** The count query reuses the WHERE body and only its parameters. */
  function CountFor(where: Sql, whereParams: seq<Value>): Statement {
    Statement([Lit(CountHead)] + WhereSection(where) + [Lit(QueryEnd)], whereParams)
  }

  function SelectStatement(req: DataRequest): Statement
    requires AllBuildable(req.filters)
  {
    SelectFor(WhereSql(req.filters, req.globalSearch), WhereParams(req.filters, req.globalSearch),
      OrderClause(req.sorts), req.limit, req.offset)
  }

  function CountStatement(req: DataRequest): Statement
    requires AllBuildable(req.filters)
  {
    CountFor(WhereSql(req.filters, req.globalSearch), WhereParams(req.filters, req.globalSearch))
  }

  /** The two statements `get_data` sends, or the status-500 reply its
      `except Exception` branch gives when building the WHERE body raises. */
  datatype Response = Queries(select: Statement, count: Statement) | ServerError

  /** `get_data` without the two database calls: build the WHERE body and the
      ORDER BY body, then the two statements. */
  method GetDataStatements(req: DataRequest) returns (r: Response)
    ensures r.ServerError? <==> !AllBuildable(req.filters)
    ensures r.Queries? ==>
              && AllBuildable(req.filters)
              && r.select == SelectStatement(req) && r.count == CountStatement(req)
              && WellNumbered(r.select.sql, r.select.params) && WellNumbered(r.count.sql, r.count.params)
  {
    var where := BuildWhereClause(req.filters, req.globalSearch);
    if where.NotIterable? {
      return ServerError;
    }
    var orderClause := BuildOrderClause(req.sorts);
    var select := SelectFor(where.sql, where.params, orderClause, req.limit, req.offset);
    var count := CountFor(where.sql, where.params);
    SelectNumbered(where.sql, where.params, orderClause, req.limit, req.offset);
    CountNumbered(where.sql, where.params);
    return Queries(select, count);
  }

  lemma WhereSectionPlaceholders(where: Sql)
    ensures Placeholders(WhereSection(where)) == if Render(where) != "" then Placeholders(where) else []
  {
    if Render(where) != "" {
      PlaceholdersAppend([Lit("WHERE ")], where);
      OnePiece(Lit("WHERE "));
    }
  }

  /** Around a well-numbered WHERE body with n parameters the data query is
      well numbered too: LIMIT is `$n+1` bound to `limit`, OFFSET is `$n+2`
      bound to `offset`, after the WHERE parameters unchanged. */
  lemma SelectNumbered(where: Sql, whereParams: seq<Value>, order: string, limit: int, offset: int)
    requires WellNumbered(where, whereParams)
    ensures var st := SelectFor(where, whereParams, order, limit, offset);
      && WellNumbered(st.sql, st.params)
      && |st.params| == |whereParams| + 2
      && st.params[..|whereParams|] == whereParams
      && st.params[|whereParams|] == Single(Int(limit))
      && st.params[|whereParams| + 1] == Single(Int(offset))
  {
    var n := |whereParams|;
    var w := WhereSection(where);
    FramedPlaceholders(SelectHead, w, LimitOffset(order, n));
    TwoPlaceholders(OrderPrefix(order), n + 1, " OFFSET ", n + 2, QueryEnd);
    WhereSectionPlaceholders(where);
    assert Placeholders(w) == Consecutive(1, n) by {
      if Render(where) == "" {
        RenderEmptyHasNoPieces(where);
      }
    }
    ConsecutiveSplit(1, n, 2);
    assert Consecutive(n + 1, 2) == [n + 1, n + 2];
    var st := SelectFor(where, whereParams, order, limit, offset);
    assert st.sql == [Lit(SelectHead)] + w + LimitOffset(order, n);
    assert Placeholders(st.sql) == Consecutive(1, n + 2);
    assert |st.params| == n + 2;
  }

  /** Around a well-numbered WHERE body the count query is well numbered
      with the WHERE parameters alone. */
  lemma CountNumbered(where: Sql, whereParams: seq<Value>)
    requires WellNumbered(where, whereParams)
    ensures var st := CountFor(where, whereParams);
      WellNumbered(st.sql, st.params) && st.params == whereParams
  {
    FramedPlaceholders(CountHead, WhereSection(where), [Lit(QueryEnd)]);
    OnePiece(Lit(QueryEnd));
    WhereSectionPlaceholders(where);
    if Render(where) == "" {
      RenderEmptyHasNoPieces(where);
    }
  }

  /** SQL that renders as nothing has no placeholder. */
  lemma {:induction false} RenderEmptyHasNoPieces(q: Sql)
    requires Render(q) == ""
    ensures Placeholders(q) == []
    decreases |q|
  {
    if q != [] {
      assert q[0].Lit?;
      RenderEmptyHasNoPieces(q[1..]);
    }
  }

  /** For every request both statements are well numbered; the data query's
      parameters are the WHERE parameters followed by `limit` and `offset`,
      the count query's are the WHERE parameters alone. */
  lemma RequestStatementsNumbered(req: DataRequest)
    requires AllBuildable(req.filters)
    ensures WellNumbered(SelectStatement(req).sql, SelectStatement(req).params)
    ensures WellNumbered(CountStatement(req).sql, CountStatement(req).params)
    ensures SelectStatement(req).params
         == WhereParams(req.filters, req.globalSearch) + [Single(Int(req.limit)), Single(Int(req.offset))]
    ensures CountStatement(req).params == WhereParams(req.filters, req.globalSearch)
  {
    var where, wp := WhereSql(req.filters, req.globalSearch), WhereParams(req.filters, req.globalSearch);
    WhereNumbered(req.filters, req.globalSearch);
    SelectNumbered(where, wp, OrderClause(req.sorts), req.limit, req.offset);
    CountNumbered(where, wp);
  }

  /** The rendered WHERE section: `WHERE ` and the body, or nothing when the body is empty. */
  lemma WhereSectionText(where: Sql)
    ensures Render(WhereSection(where)) == if Render(where) != "" then "WHERE " + Render(where) else ""
  {
    if Render(where) != "" {
      RenderAppend([Lit("WHERE ")], where);
      OnePiece(Lit("WHERE "));
    }
  }

  lemma SelectForText(where: Sql, whereParams: seq<Value>, order: string, limit: int, offset: int)
    ensures var n := |whereParams|;
      Render(SelectFor(where, whereParams, order, limit, offset).sql)
      == SelectHead + Render(WhereSection(where)) + LimitOffsetText(order, n)
  {
    var n := |whereParams|;
    FramedRender(SelectHead, WhereSection(where), LimitOffset(order, n));
    TwoPlaceholdersText(OrderPrefix(order), n + 1, " OFFSET ", n + 2, QueryEnd);
  }

  lemma CountForText(where: Sql, whereParams: seq<Value>)
    ensures Render(CountFor(where, whereParams).sql) == CountHead + Render(WhereSection(where)) + QueryEnd
  {
    FramedRender(CountHead, WhereSection(where), [Lit(QueryEnd)]);
    OnePiece(Lit(QueryEnd));
  }

  /** The text of the two statements: both carry the same WHERE section,
      which is absent exactly when there are no filters and no global search;
      the data query ends in `LIMIT $n+1 OFFSET $n+2`. */
  lemma RequestText(req: DataRequest)
    requires AllBuildable(req.filters)
    ensures var where := WhereSql(req.filters, req.globalSearch);
      var n := |WhereParams(req.filters, req.globalSearch)|;
      var section := if req.filters == [] && !SearchActive(req.globalSearch) then "" else "WHERE " + Render(where);
      && Render(SelectStatement(req).sql)
         == SelectHead + section + LimitOffsetText(OrderClause(req.sorts), n)
      && Render(CountStatement(req).sql) == CountHead + section + QueryEnd
  {
    var where, wp := WhereSql(req.filters, req.globalSearch), WhereParams(req.filters, req.globalSearch);
    WhereEmpty(req.filters, req.globalSearch);
    WhereSectionText(where);
    SelectForText(where, wp, OrderClause(req.sorts), req.limit, req.offset);
    CountForText(where, wp);
  }
}
