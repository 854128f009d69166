# Doris dialect support in Keep's query layer, modelled in Dafny

This project models the logic that Keep's backend gained for Apache Doris:

- **The Doris facets query builder** (`DorisFacetsQueryBuilder`). It caps
  facet options at 50 rows. It normalises BOOLEAN facet values through a
  four-branch SQL `CASE`. It selects ARRAY facets through the alias of a
  `json_each` join and names the facet CTE after the first field mapping.
  It builds the `$."a"."b"` JSON path for JSON field mappings.
- **The CEL-to-SQL provider dispatch** (`get_cel_to_sql_provider_for_dialect`).
  This is a decision table from the dialect name and the Doris flag to a
  provider, or a `ValueError`.

SQLAlchemy expressions and queries are an abstract datatype
(`SqlExpressions.Expr`, `SqlExpressions.Query`). Its nodes record the names
and strings that the builder passes to the library. An evaluator covers column
reads (`Col` and `literal_column`), string literals, `LOWER`, the integer cast and `CASE`, under SQL's
three-valued logic. The database's string-to-integer cast is a function
parameter. Every lemma holds for all casts, or for casts meeting a named
assumption: `DorisFacets.EmptyCastsBelowOne` says the empty string does not cast
to an integer of at least 1. The Doris flag (`is_doris()`) is a boolean
parameter. The engine's dialect name is a string parameter.

Files:

- `wrappers.dfy`: the `Result` type for operations that raise.
- `sql_expressions.dfy`: expressions, queries and the evaluator.
- `doris_json_path.dfy`: the JSON path builder and its inverse.
- `doris_facets.dfy`: the facets builder's overrides.
- `cel_provider_dispatch.dfy`: provider selection.

An override that hands its call to the base builder unchanged is modelled as
returning `None`: "defer to the base class with the same arguments".

## Model

| member | source | states |
|---|---|---|
| `DorisFacets.BuildFacetSubquery` | keep/api/core/facets_query_builder/doris.py:38-56 | the result is the base builder's facet subquery, built from the same arguments, with a limit of 50 |
| `DorisFacets.FacetSubqueryCapsOptions` | keep/api/core/facets_query_builder/doris.py:38-56 | whatever rows the base builder's subquery yields, the Doris subquery yields their first 50 (all of them if fewer) |
| `DorisFacets.CastColumn` | keep/api/core/facets_query_builder/doris.py:58-68 | BOOLEAN gets a four-branch CASE whose branches and ELSE are all the literals "true"/"false"; every other type defers unchanged to the base builder, and only those do |
| `DorisFacets.BooleanCastMeaning` | keep/api/core/facets_query_builder/doris.py:59-66 | evaluating the CASE over any column expression whose value is a nullable string gives, branch by branch under three-valued logic, the normalised value of that cell |
| `DorisFacets.ColumnReadIsStringCell` | keep/api/core/facets_query_builder/doris.py:58 | a column object and a `literal_column` both read the row's nullable string, so the BOOLEAN lemmas apply to either |
| `DorisFacets.BooleanCastIsTrueOrFalse` | keep/api/core/facets_query_builder/doris.py:60-66 | the normalisation always yields exactly one of "true" or "false", for every string-valued column, every cell and every cast |
| `DorisFacets.BooleanCastKeywords` | keep/api/core/facets_query_builder/doris.py:61-62 | a lower-case form "true" maps to "true" and a lower-case form "false" maps to "false", so "FALSE" stays false |
| `DorisFacets.BooleanCastNullAndEmpty` | keep/api/core/facets_query_builder/doris.py:63-65 | NULL maps to "false"; the empty string maps to "false" provided the cast of "" is below 1 |
| `DorisFacets.BooleanCastSimplified` | keep/api/core/facets_query_builder/doris.py:59-66 | the result is "true" iff the cell is non-NULL, non-empty and not case-insensitively "false" |
| `DorisFacets.BooleanCastZeroAndNoAreTrue` | keep/api/core/facets_query_builder/doris.py:63-64 | "0" and "no" normalise to "true" whatever the cast does |
| `DorisFacets.BooleanCastIndependentOfCast` | keep/api/core/facets_query_builder/doris.py:63 | two casts that agree "" is below 1 give the same result on every cell of a column that does not itself use the cast, so the cast branch never decides the outcome |
| `DorisFacets.ArrayAlias` | keep/api/core/facets_query_builder/doris.py:90 | the join alias is the field name followed by exactly "_array" |
| `DorisFacets.SelectForColumn` | keep/api/core/facets_query_builder/doris.py:70-73 | ARRAY facets select the literal column named by the array alias; all other types, and only those, defer to the base builder |
| `DorisFacets.BuildFacetSubqueryForJsonArray` | keep/api/core/facets_query_builder/doris.py:75-102 | an empty list of field mappings raises IndexError, and only that does; a JSON first mapping (which has no `map_to`) raises AttributeError, and only that does; otherwise the result is a CTE over a grouping over an outer join of the given base query |
| `DorisFacets.ArraySelectReadsJoinedTable` | keep/api/core/facets_query_builder/doris.py:71-72 | for an ARRAY facet with a simple first mapping the selected column equals the alias of the json_each join, so the select refers to the joined table |
| `DorisFacets.FacetCteNamedAfterFirstMapping` | keep/api/core/facets_query_builder/doris.py:89-102 | the CTE is named from the first mapping's column plus "_facet_subquery"; json_each expands that same column; later mappings change nothing |
| `DorisFacets.HandleJsonMapping` | keep/api/core/facets_query_builder/doris.py:104-110 | the result unquotes a JSON_EXTRACT over the mapping's JSON column; when no key holds a double quote its path reads back to exactly the mapping's keys |
| `DorisJsonPath.JsonPath` | keep/api/core/facets_query_builder/doris.py:105-107 | every built path starts with "$." |
| `DorisJsonPath.JsonPathLength` | keep/api/core/facets_query_builder/doris.py:105-107 | for n >= 1 keys the path has 2 + sum(len(key) + 2) + (n - 1) characters; for no keys it is "$." |
| `DorisJsonPath.SplitJsonPathRoundTrip` | keep/api/core/facets_query_builder/doris.py:105-107 | when no key contains a double quote, splitting the path after "$." and stripping the quotes recovers the list of keys |
| `DorisJsonPath.PathNotInjectiveWithQuotes` | keep/api/core/facets_query_builder/doris.py:105-107 | without that condition the encoding is not injective: ['a"."b'] and ['a', 'b'] give the same path |
| `CelToSqlDispatch.ProviderForDialect` | keep/api/core/cel_to_sql/sql_providers/get_cel_to_sql_provider_for_dialect.py:17-31 | a provider is returned iff the name is exactly "sqlite", "mysql" or "postgresql", built with the engine's dialect and the given metadata; otherwise a ValueError naming the engine's dialect; "mysql" always gives a MySQL-class instance; a Doris provider only with the flag set |
| `CelToSqlDispatch.CelToSqlProvider` | keep/api/core/cel_to_sql/sql_providers/get_cel_to_sql_provider_for_dialect.py:11-14 | the engine's provider succeeds iff the engine's dialect is supported; its error names that same dialect |
| `CelToSqlDispatch.DispatchTable` | keep/api/core/cel_to_sql/sql_providers/get_cel_to_sql_provider_for_dialect.py:21-28 | "sqlite" gives the SQLite provider whatever the flag; "mysql" gives Doris with the flag and MySQL without; "postgresql" gives PostgreSQL; each built with the engine's dialect and the metadata |
| `CelToSqlDispatch.MySqlWithDorisFlag` | keep/api/core/cel_to_sql/sql_providers/get_cel_to_sql_provider_for_dialect.py:23-25 | with the flag set, "mysql" gives a Doris provider, which is also a MySQL provider instance since the class is a subclass |
| `CelToSqlDispatch.MySqlWithoutDorisFlag` | keep/api/core/cel_to_sql/sql_providers/get_cel_to_sql_provider_for_dialect.py:26 | with the flag clear, "mysql" gives a MySQL provider that is not a Doris provider |
| `CelToSqlDispatch.DialectMatchIsCaseSensitive` | keep/api/core/cel_to_sql/sql_providers/get_cel_to_sql_provider_for_dialect.py:21-31 | the match is exact: "MySQL" is rejected |
| `CelToSqlDispatch.DorisFlagOnlyAffectsMySql` | keep/api/core/cel_to_sql/sql_providers/get_cel_to_sql_provider_for_dialect.py:24 | for every dialect name other than "mysql" the result is the same with the flag set or clear |
| `CelToSqlDispatch.ErrorNamesEngineDialect` | keep/api/core/cel_to_sql/sql_providers/get_cel_to_sql_provider_for_dialect.py:31 | the error message interpolates the engine's dialect, so rejecting "oracle" on a MySQL engine reports "Unsupported dialect: mysql" |

## Left out

- SQLAlchemy query construction and execution. This covers `func.json_each(...).table_valued`, `outerjoin`, `group_by`, `cte`, `limit`, `json_extract` and `json_unquote`. They appear only as uninterpreted nodes that record their arguments. The evaluator interprets none of them, so the JSON functions have no runtime semantics here.
- The runtime behaviour of `CAST(... AS INTEGER)`. It is a function parameter. The only assumption about it is the named one about `""`, and only the lemmas that need it require it.
- `LowerChar`: `LOWER` is modelled as ASCII lower-casing. Non-ASCII case folding done by the database collation is not modelled.
- Row cells are modelled as nullable strings, and the BOOLEAN lemmas are stated for column expressions that evaluate to one. A column of integer or boolean type lies outside the model: in the source, `!= ''` and `LOWER` on such a column would compare or convert across types, and the evaluator does not interpret that (it yields None).
- String comparison is exact equality of character sequences. Collation-dependent comparison (case-insensitive collations, MySQL's PAD SPACE trailing-blank rule) is not modelled.
- The base facets builder (`BaseFacetsQueryBuilder`) is not part of this model: its `build_facet_subquery`, `_cast_column` and `_get_select_for_column`. The Doris overrides that defer to it are modelled as returning `None`. `build_facet_subquery` also receives a `base_query_factory` callable, which the model does not carry.
- `is_doris()` and the environment variable behind it are not part of this model. The flag is a boolean parameter.
- The engine (`keep.api.core.db.engine`) is not part of this model. Its dialect name is a string parameter.
- Provider constructors are modelled as tags plus their arguments. `CelToDorisProvider` (keep/api/core/cel_to_sql/sql_providers/doris.py:12-20) adds no behaviour to the MySQL provider, so the model keeps only its subclass relation, in `CelToSqlDispatch.IsInstance`.
- `properties_metadata` and `ast_nodes` are not part of this model. `PropertyMetadataInfo`, the field mappings and `DataType` carry only the attributes the Doris builder reads. A field mapping is either simple (with `map_to`) or JSON (with `json_prop` and `prop_in_json`); the model assumes a JSON mapping has no `map_to`, so reading it raises AttributeError. All data types other than BOOLEAN and ARRAY are carried by name.
- The web front end (the workflow-builder chat, the chat API route, the navbar animation and the AI plugins page) is not modelled. It is rendering, timers and calls to an external language-model service and an external chat hook, and it contains no state machine of its own to model.
