# Dataset service SQL builder, modelled in Dafny

The dataset service (`server/main.py`) answers `POST /data` with a page of rows
from the `items` table, plus the total row count. The request carries:

- the offset and limit of the page;
- filter conditions (column, operator, value);
- sort conditions (column, direction, priority);
- an optional global search string.

The handler builds two SQL statements from the request, each with the list of
positional parameters that asyncpg binds to its `$1`, `$2`, ... placeholders.
This project models how that SQL is built and proves properties of it:

- `build_where_clause` (module `WhereBuilder`, `where_clause.dfy`). It handles
  each filter in turn:
  - `in` / `not in` filters get a parenthesised placeholder list, one
    parameter per element the value iterates;
  - `like` wraps the value's text in `%...%`;
  - any other operator passes the value unchanged.

  A non-empty global search then adds one parenthesised `OR` of three `LIKE`
  terms, over `name`, `version` and `description`. The clauses are joined
  with `AND`.
- `build_order_clause` (module `OrderBuilder`, `order_clause.dfy`). It sorts
  stably by priority, then emits one `column ASC|DESC` term per condition.
  With no sort conditions the clause is `id ASC`.
- The pure part of `get_data` (module `DataQuery`, `data_query.dfy`):
  - the data query, `SELECT ... WHERE ... ORDER BY ... LIMIT $n+1 OFFSET $n+2`,
    with parameters `where_params + [limit, offset]`;
  - the count query, with the same WHERE body and only `where_params`;
  - the status-500 reply when building the WHERE body raises.

SQL text is modelled as a sequence of pieces (module `Sql`, `sql.dfy`). A piece
is either literal text or a placeholder `$k`, and `Render` gives the string the
database receives. The central invariant is `WellNumbered`: the placeholders
are exactly `$1 .. $n` in textual order, where `n` is the number of parameters,
so each `$k` refers to `params[k-1]`. It is stated on pieces rather than on the
rendered string, because column and operator text come from the client and may
contain `$` themselves. Module `Text` (`text.dfy`) supplies the parts of
Python's `str` that the code uses: ASCII `lower()`, `str(int)` and `sep.join`.

The builders are imperative in the source: they append to lists inside `for`
loops and read placeholder numbers from the running `len(params)`. They are
modelled as the methods `BuildWhereClause` (with `AddFilter` and
`AddGlobalSearch`) and `BuildOrderClause`. Each is proved against
specification functions (`ClauseList`, `FilterParamsAll`, `WhereSql`,
`WhereParams`, `OrderClause`), and the lemmas are proved about those
functions. The statement assembly in `get_data` is f-strings and list
concatenation, so it is modelled as functions.

`value` is `Any` in the source, and an `in` / `not in` filter calls
`len(filter.value)` and `params.extend(filter.value)` on it. The model
follows what Python does with each kind of value (`Elements`):

- a list contributes its elements;
- a string contributes its characters, as one-character strings;
- an int, a bool or `None` raises `TypeError`.

`TypeError` is modelled as `NotIterable(i)`, where `i` is the first such
filter. `get_data` turns it into the status-500 reply (`ServerError`). A
filter whose operator is neither IN nor `like` binds its value itself as one
parameter, even a list. A `like` filter binds `"%" + str(value) + "%"`, so a list
value becomes `%` + the list's text + `%`.

Where each piece of the source is defined:

- `FilterCondition`, `SortCondition`, `DataRequest` (server/main.py:30-50): the datatypes of the same names.
- The per-filter branch (server/main.py:70-82):
  - `WhereBuilder.FilterSql` is the clause;
  - `WhereBuilder.FilterParams` is the parameters;
  - `WhereBuilder.Elements` is what `len` and `extend` see of an IN value;
  - `WhereBuilder.ValueText` and `WhereBuilder.Wrap` are `f"%{filter.value}%"`.
- The global search (server/main.py:85-91): `WhereBuilder.SearchSql` and `WhereBuilder.SearchParams`.
- The whole result (server/main.py:93): `WhereBuilder.WhereSql` and `WhereBuilder.WhereParams`.
- `sorted(..., key=priority)` (server/main.py:110): `OrderBuilder.SortByPriority`, an insertion sort built on `OrderBuilder.Insert`.
- The direction (server/main.py:113): `OrderBuilder.DirectionKeyword`.
- The clause (server/main.py:106-116): `OrderBuilder.OrderClause`.
- The statements (server/main.py:168-187):
  - `DataQuery.WhereSection` is `f'WHERE {where_clause}' if where_clause else ''`;
  - `DataQuery.SelectFor` and `DataQuery.SelectStatement` are the data query and its parameters;
  - `DataQuery.CountFor` and `DataQuery.CountStatement` are the count query.

## Model

| member | source | states |
|---|---|---|
| WhereBuilder.BuildWhereClause | server/main.py:54-93 | It fails (TypeError) exactly when some IN filter's value cannot be iterated, and reports the first such filter. Otherwise it returns the specified WHERE body and parameters; the body is well numbered, and the parameter count is the sum of the filter arities plus 3 for an active search. |
| WhereBuilder.AddFilter | server/main.py:69-82 | One pass of the filter loop appends exactly that filter's clause, numbered from the current parameter count, and exactly its parameters. |
| WhereBuilder.AddGlobalSearch | server/main.py:85-91 | The search block appends exactly one clause, the parenthesised OR numbered after the existing parameters, and the three wrapped search parameters. |
| WhereBuilder.ParamCountSnoc | server/main.py:69-82 | Adding a filter at the end of the list adds its arity to the parameter count. |
| WhereBuilder.FilterParamsArity | server/main.py:72-82 | A filter appends as many parameters as its arity: the number of iterated values for IN, one otherwise. |
| WhereBuilder.FilterParamsCount | server/main.py:69-82 | After the first i filters, the loop holds exactly as many parameters as the independently defined sum of their arities. |
| WhereBuilder.WhereParamCount | server/main.py:69-90 | The total parameter count is the sum of the filter arities, plus 3 when the global search is present and non-empty. |
| WhereBuilder.PhListNumbered | server/main.py:72 | An IN list of m values after n parameters uses `$n+1 .. $n+m`, in order. |
| WhereBuilder.FilterSqlNumbered | server/main.py:70-82 | A filter clause after n parameters holds exactly the placeholders `$n+1 .. $n+arity`, in order. |
| WhereBuilder.ClauseListNumbered | server/main.py:69-82 | After the first i filters, the clauses' placeholders are exactly `$1 .. $len(params)`, in clause order. |
| WhereBuilder.SearchTermsNumbered | server/main.py:88-90 | The LIKE terms after n parameters use `$n+1`, `$n+2`, ..., one per column, in column order. |
| WhereBuilder.SearchSqlNumbered | server/main.py:85-91 | The search clause after n parameters holds exactly `$n+1, $n+2, $n+3`. |
| WhereBuilder.SearchText | server/main.py:86-91 | The search clause renders as `(name LIKE $n+1 OR version LIKE $n+2 OR description LIKE $n+3)`. |
| WhereBuilder.SearchTermPlaceholders | server/main.py:89 | A LIKE term holds the single placeholder it was numbered with. |
| WhereBuilder.SearchTermText | server/main.py:89 | A LIKE term renders as `col LIKE $k`. |
| WhereBuilder.WhereNumbered | server/main.py:54-93 | The WHERE body's placeholders are exactly `$1 .. $len(params)`, in order, including the search clause. |
| WhereBuilder.WhereClausesInOrder | server/main.py:69-93 | There is one clause per filter, in input order, and filter i is numbered after the parameters of the filters before it. The search clause, when present, comes last, after all filter parameters. The body is the clauses joined with ` AND `. |
| WhereBuilder.ClauseListInOrder | server/main.py:69-82 | After i filters there are i clauses, and clause j is filter j's clause, numbered from the parameters present when filter j was reached. |
| WhereBuilder.FilterParamsPrefix | server/main.py:74-82 | The loop only appends: the parameters after i filters are a prefix of those after any later k. |
| WhereBuilder.FilterParamsInOrder | server/main.py:69-82 | In the final parameter list, filter i's parameters sit exactly at positions `ParamCount(filters[..i])` onwards. |
| WhereBuilder.FilterBinding | server/main.py:69-93 | In the returned body, filter i's clause holds `$p+1 .. $p+a`. `p` is the combined arity of the filters before it and `a` is its own arity. The returned `params[p .. p+a]` are exactly that filter's parameters, so each `$k` in its clause names one of its own values. |
| WhereBuilder.WhereParamsInOrder | server/main.py:69-90 | In the returned parameters, filter i's parameters sit exactly at positions `ParamCount(filters[..i])` onwards. |
| WhereBuilder.SearchParamsLast | server/main.py:85-90 | With an active search, the last three parameters are each `"%" + search + "%"`, after all filter parameters. |
| WhereBuilder.WhereEmpty | server/main.py:84-93 | The body renders empty exactly when there are no filters and the search is `None` or `""`; the result is then `("", [])`. |
| WhereBuilder.ScalarFilterText | server/main.py:75-82 | A non-IN filter renders as `column operator $n+1`. `like` binds `"%" + str(value) + "%"`; any other operator binds the value unchanged. |
| WhereBuilder.InFilterText | server/main.py:72-73 | An IN filter with m values renders as `column operator ($n+1, ..., $n+m)`. |
| WhereBuilder.PhListTexts | server/main.py:72 | The IN placeholder fragments render as `$n+1`, ..., `$n+m`. |
| WhereBuilder.InFilterParams | server/main.py:72-74 | An IN filter binds a list's elements in order, or a string's characters one by one. Any other value is not buildable. |
| WhereBuilder.DispatchIgnoresCase | server/main.py:70-81 | Two filters whose operators agree after `lower()` bind the same parameters and placeholders. Their clauses differ only in the operator text, which is copied verbatim after the column. |
| WhereBuilder.FilterTextSplit | server/main.py:70-81 | A filter clause is `column + " " + operator`, followed by a tail that depends on the operator only through its dispatch. |
| Text.LowerMatches | server/main.py:113 | `s.lower()` equals a lower-case word exactly when s has the same length and, at each position, the word's character in either case. |
| Text.DecimalRoundTrip | server/main.py:72 | The decimal text of a placeholder number reads back as that number and has no leading zero, so different placeholders never look alike. |
| Sql.PlaceholderText | server/main.py:72 | `$k` renders as `$` followed by digits that read back as k. |
| Sql.JoinPlaceholders | server/main.py:91-93 | Joining fragments with a literal separator keeps their placeholders, in order, and adds none. |
| Sql.JoinRender | server/main.py:91-93 | Rendering a joined list is `sep.join` of the rendered fragments. |
| Sql.WellNumberedMeaning | server/main.py:72-93 | Under the numbering invariant, every placeholder names an existing parameter, every parameter is named by exactly one placeholder, and the numbers rise strictly. |
| OrderBuilder.DirectionAscIff | server/main.py:113 | A direction renders as ASC exactly when it is `asc` in some mix of cases; every other string renders as DESC. |
| OrderBuilder.InsertFacts | server/main.py:110 | Inserting into a sorted list keeps it sorted and adds exactly the inserted condition. |
| OrderBuilder.InsertWithPriority | server/main.py:110 | Insertion puts the new condition before the existing conditions of its priority. The sort inserts the earlier input element into the sorted rest, so this is what keeps the sort stable. |
| OrderBuilder.SortSortsAndPermutes | server/main.py:110 | `sorted(..., key=priority)` gives non-decreasing priorities and a permutation of the input. |
| OrderBuilder.SortStable | server/main.py:110 | The sort is stable: for every priority, the conditions with that priority keep their input order. |
| OrderBuilder.StableOrderUnique | server/main.py:110 | Any two non-decreasing orders with the same per-priority subsequences are equal, so the model's sort is exactly Python's stable sort. |
| OrderBuilder.BuildOrderClause | server/main.py:96-116 | The loop builds the specified ORDER BY body; with no sort conditions it is `id ASC`. |
| OrderBuilder.OrderClauseTerms | server/main.py:110-116 | For non-empty sorts, the clause joins exactly one term per condition with `, `, sorted by non-decreasing priority, with ties in input order and each term naming its condition. |
| DataQuery.GetDataStatements | server/main.py:160-196 | It replies status 500 exactly when building the WHERE body raises. Otherwise it returns the specified data and count statements, and both are well numbered. |
| DataQuery.WhereSectionPlaceholders | server/main.py:171 | The `WHERE` section has the body's placeholders, or none when the body is empty. |
| DataQuery.SelectNumbered | server/main.py:168-177 | Around a well-numbered body with n parameters, the data query is well numbered: LIMIT is `$n+1` bound to `limit`, OFFSET is `$n+2` bound to `offset`, and the WHERE parameters come first, unchanged. |
| DataQuery.CountNumbered | server/main.py:183-188 | The count query is well numbered and binds only the WHERE parameters. |
| DataQuery.RequestStatementsNumbered | server/main.py:162-188 | For every buildable request both statements are well numbered. The data query binds `where_params + [limit, offset]`; the count query binds `where_params`. |
| DataQuery.WhereSectionText | server/main.py:171 | The section renders as `WHERE ` and the body, or as nothing when the body is empty. |
| DataQuery.SelectForText | server/main.py:168-174 | The data query renders as the SELECT head, then the WHERE section, then `ORDER BY`, the order clause and `LIMIT $n+1 OFFSET $n+2`. |
| DataQuery.CountForText | server/main.py:183-187 | The count query renders as the COUNT head and the same WHERE section. |
| DataQuery.RequestText | server/main.py:162-187 | Both statements carry the same WHERE section, which is absent exactly when there are no filters and no active search. The data query ends in `LIMIT $n+1 OFFSET $n+2`. |

## Left out

- The FastAPI app, the CORS middleware and the connection pool (`startup`, `shutdown`, `get_db`, server/main.py:13-26, 120-144): framework and I/O plumbing.
- `db.fetch` and `db.fetchval` (server/main.py:180, 188): database I/O. The model stops at the statements and parameter lists handed to them. A database error, which the same `except` branch would also turn into status 500, is not modelled.
- The `detail=str(e)` text of the status-500 reply (server/main.py:196): the model records only that the reply is a server error.
- `init_db` (server/main.py:199-279): DDL, transactions and random data generation.
- What PostgreSQL does with the generated text: matching, indexes, and injection through the column and operator text, which the source copies verbatim. The model speaks only about the text's shape and the parameters.
- Pydantic validation and coercion of the request. The fields are taken as already typed.
- Filter values that are floats, dicts or nested lists. Scalars are strings, ints, bools and `None`.
- `ValueText`: a list value under `like` renders in a simplified `repr`. Strings are quoted with `'` and nothing is escaped.
- `Text.Lower`: only ASCII letters change case; Python's Unicode case mapping is not modelled.
- The list is not mutated by `sorted`, and the request is not mutated by the builders. Dafny values are immutable, so these hold by construction and are not stated.
- The client-side window cache, debounce and fetch coordination: no source file for them is part of this model.
