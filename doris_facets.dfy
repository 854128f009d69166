/** The decisions and strings of the Doris facets query builder: how it
    normalises BOOLEAN facet values, which column it selects for ARRAY
    facets, how it names the json_each join and the facet CTE, how it builds
    the JSON path for a JSON field mapping, and the cap on facet options.
    Methods the builder does not override are left to the base builder; an
    override that defers to it is modelled as returning None. */
module DorisFacets {

  import opened SqlExpressions
  import opened DorisJsonPath
  import opened Wrappers

  /** How a property is stored: in a column named `mapTo`, or inside the
      JSON column `jsonProp` under the chain of keys `propInJson`. Only the
      simple kind has a `map_to` attribute. */
  datatype FieldMapping =
    | SimpleFieldMapping(mapTo: string)
    | JsonFieldMapping(jsonProp: string, propInJson: seq<string>)

  type JsonMapping = m: FieldMapping | m.JsonFieldMapping? witness JsonFieldMapping("", [])

  datatype PropertyMetadataInfo =
    PropertyMetadataInfo(fieldName: string, dataType: DataType, fieldMappings: seq<FieldMapping>)

  /** Python's IndexError, raised by `field_mappings[0]` on an empty list,
      and AttributeError, raised by `.map_to` on a JSON field mapping. */
  datatype BuildError = IndexError | AttributeError

  /** The number of options each facet returns at most. */
  const FacetOptionLimit: nat := 50

  const ArraySuffix := "_array"
  const FacetSubquerySuffix := "_facet_subquery"

  // ---------------------------------------------------------------------
  // build_facet_subquery
  // ---------------------------------------------------------------------

  /** The base builder's facet subquery, built from the same arguments and
      capped to FacetOptionLimit rows. */
  function BuildFacetSubquery(facetKey: string, entityIdColumn: Expr, facetPropertyPath: string, facetCel: string): (q: Query)
    ensures q.Limit? && q.count == FacetOptionLimit
    ensures q.source == InheritedFacetSubquery(facetKey, entityIdColumn, facetPropertyPath, facetCel)
  {
    Limit(InheritedFacetSubquery(facetKey, entityIdColumn, facetPropertyPath, facetCel), FacetOptionLimit)
  }

  /** Whatever rows the base builder's subquery yields, the Doris facet
      subquery yields their first 50 (all of them when there are fewer). */
  lemma FacetSubqueryCapsOptions<R>(facetKey: string, entityIdColumn: Expr, facetPropertyPath: string,
                                    facetCel: string, inheritedRows: seq<R>)
    ensures var rows := OptionRows(BuildFacetSubquery(facetKey, entityIdColumn, facetPropertyPath, facetCel), inheritedRows);
      && rows.Some?
      && |rows.value| == (if |inheritedRows| <= FacetOptionLimit then |inheritedRows| else FacetOptionLimit)
      && rows.value == inheritedRows[..|rows.value|]
  {
  }

  // ---------------------------------------------------------------------
  // _cast_column
  // ---------------------------------------------------------------------

  /** The Doris override of the column cast: a CASE cascade for BOOLEAN
      facets, None (defer to the base builder with the same arguments) for
      every other type. */
  function CastColumn(column: Expr, dataType: DataType): (r: Option<Expr>)
    ensures r.None? <==> dataType != Boolean
    ensures r.Some? ==> r.value.Case? && |r.value.whens| == 4 && r.value.otherwise == Lit("false")
    ensures r.Some? ==> forall i :: 0 <= i < |r.value.whens| ==>
      r.value.whens[i].result in {Lit("true"), Lit("false")}
  {
    if dataType == Boolean then
      Some(Case([ When(Equals(Lower(column), "true"), Lit("true")),
                  When(Equals(Lower(column), "false"), Lit("false")),
                  When(AtLeast(CastInt(column), 1), Lit("true")),
                  When(NotEquals(column, ""), Lit("true")) ],
                Lit("false")))
    else
      None
  }

  /** What the BOOLEAN cascade means for one nullable cell, branch by branch
      under SQL's three-valued logic (a comparison with NULL selects no
      branch). */
  function NormalizedBoolean(cell: Option<string>, cast: IntCast): string
  {
    if cell.None? then "false"
    else if LowerAscii(cell.value) == "true" then "true"
    else if LowerAscii(cell.value) == "false" then "false"
    else if cast(cell.value).Some? && cast(cell.value).value >= 1 then "true"
    else if cell.value != "" then "true"
    else "false"
  }

  /** The assumption, about the database's integer cast, that the empty
      string does not convert to an integer of at least 1. */
  predicate EmptyCastsBelowOne(cast: IntCast) {
    cast("").None? || cast("").value < 1
  }

  /** The column expression evaluates to a nullable string cell (a column
      read, a string literal, a lower-cased string, ...). */
  predicate IsStringCell(column: Expr, row: Row, cast: IntCast) {
    var v := Eval(column, row, cast);
    v == Some(Null) || (v.Some? && v.value.Str?)
  }

  /** That cell, with NULL as None. */
  function CellOf(column: Expr, row: Row, cast: IntCast): Option<string>
    requires IsStringCell(column, row, cast)
  {
    if Eval(column, row, cast) == Some(Null) then None else Some(Eval(column, row, cast).value.s)
  }

  /** The BOOLEAN cascade built over `column`, as evaluated in `row`. */
  function BooleanCast(column: Expr, row: Row, cast: IntCast): Option<Value>
  {
    Eval(CastColumn(column, Boolean).value, row, cast)
  }

  /** Evaluating the BOOLEAN cascade over any column expression whose value
      is a nullable string gives the normalised string of that cell. */
  lemma BooleanCastMeaning(column: Expr, row: Row, cast: IntCast)
    requires IsStringCell(column, row, cast)
    ensures BooleanCast(column, row, cast) == Some(Str(NormalizedBoolean(CellOf(column, row, cast), cast)))
  {
    var e := CastColumn(column, Boolean).value;
    var cell := CellOf(column, row, cast);
    var c := column;
    assert Eval(e, row, cast) == EvalCaseFrom(e, 0, row, cast);
    if cell.None? {
      assert Eval(c, row, cast) == Some(Null);
      assert Eval(Lower(c), row, cast) == Some(Null);
      assert Eval(CastInt(c), row, cast) == Some(Null);
      assert EvalCaseFrom(e, 0, row, cast) == EvalCaseFrom(e, 1, row, cast);
      assert EvalCaseFrom(e, 1, row, cast) == EvalCaseFrom(e, 2, row, cast);
      assert EvalCaseFrom(e, 2, row, cast) == EvalCaseFrom(e, 3, row, cast);
      assert EvalCaseFrom(e, 3, row, cast) == EvalCaseFrom(e, 4, row, cast);
      assert EvalCaseFrom(e, 4, row, cast) == Eval(Lit("false"), row, cast);
    } else {
      var s := cell.value;
      var l := LowerAscii(s);
      assert Eval(c, row, cast) == Some(Str(s));
      assert Eval(Lower(c), row, cast) == Some(Str(l));
      if l == "true" {
        assert EvalCaseFrom(e, 0, row, cast) == Eval(Lit("true"), row, cast);
      } else if l == "false" {
        assert EvalCaseFrom(e, 0, row, cast) == EvalCaseFrom(e, 1, row, cast);
        assert EvalCaseFrom(e, 1, row, cast) == Eval(Lit("false"), row, cast);
      } else {
        assert EvalCaseFrom(e, 0, row, cast) == EvalCaseFrom(e, 1, row, cast);
        assert EvalCaseFrom(e, 1, row, cast) == EvalCaseFrom(e, 2, row, cast);
        assert Eval(CastInt(c), row, cast) == Some(if cast(s).None? then Null else Int(cast(s).value));
        if cast(s).Some? && cast(s).value >= 1 {
          assert EvalCaseFrom(e, 2, row, cast) == Eval(Lit("true"), row, cast);
        } else {
          assert EvalCaseFrom(e, 2, row, cast) == EvalCaseFrom(e, 3, row, cast);
          if s == "" {
            assert EvalCaseFrom(e, 3, row, cast) == EvalCaseFrom(e, 4, row, cast);
            assert EvalCaseFrom(e, 4, row, cast) == Eval(Lit("false"), row, cast);
          } else {
            assert EvalCaseFrom(e, 3, row, cast) == Eval(Lit("true"), row, cast);
          }
        }
      }
    }
  }

  /** A column read, whether a column object or a `literal_column`, is
      always a nullable string cell holding the row's value, so every lemma
      below applies to both. */
  lemma ColumnReadIsStringCell(name: string, row: Row, cast: IntCast)
    ensures IsStringCell(Col(name), row, cast) && CellOf(Col(name), row, cast) == row(name)
    ensures IsStringCell(LiteralColumn(name), row, cast) && CellOf(LiteralColumn(name), row, cast) == row(name)
  {
  }

  /** The cascade always yields exactly one of the strings "true" and
      "false", whatever the cell holds and whatever the cast does. */
  lemma BooleanCastIsTrueOrFalse(column: Expr, row: Row, cast: IntCast)
    requires IsStringCell(column, row, cast)
    ensures BooleanCast(column, row, cast) == Some(Str("true")) || BooleanCast(column, row, cast) == Some(Str("false"))
  {
    BooleanCastMeaning(column, row, cast);
  }

  /** A cell whose lower-case form is "true" maps to "true"; one whose
      lower-case form is "false" maps to "false" (so "FALSE" stays false,
      the false test coming before the non-empty test). */
  lemma BooleanCastKeywords(column: Expr, row: Row, cast: IntCast)
    requires IsStringCell(column, row, cast) && CellOf(column, row, cast).Some?
    ensures LowerAscii(CellOf(column, row, cast).value) == "true" ==> BooleanCast(column, row, cast) == Some(Str("true"))
    ensures LowerAscii(CellOf(column, row, cast).value) == "false" ==> BooleanCast(column, row, cast) == Some(Str("false"))
  {
    BooleanCastMeaning(column, row, cast);
  }

  /** NULL maps to "false" through the ELSE branch, and so does the empty
      string under the assumption about the cast of "". */
  lemma BooleanCastNullAndEmpty(column: Expr, row: Row, cast: IntCast)
    requires IsStringCell(column, row, cast)
    requires CellOf(column, row, cast).None? || (CellOf(column, row, cast) == Some("") && EmptyCastsBelowOne(cast))
    ensures BooleanCast(column, row, cast) == Some(Str("false"))
  {
    BooleanCastMeaning(column, row, cast);
  }

  /** The four branches collapse to one test: the result is "true" exactly
      when the cell is non-NULL, non-empty and not case-insensitively
      "false". The cast branch therefore never decides the outcome. */
  lemma BooleanCastSimplified(column: Expr, row: Row, cast: IntCast)
    requires IsStringCell(column, row, cast) && EmptyCastsBelowOne(cast)
    ensures var cell := CellOf(column, row, cast);
      (BooleanCast(column, row, cast) == Some(Str("true"))
       <==> cell.Some? && cell.value != "" && LowerAscii(cell.value) != "false")
  {
    BooleanCastMeaning(column, row, cast);
    var cell := CellOf(column, row, cast);
    if cell.Some? && LowerAscii(cell.value) == "true" {
      assert |cell.value| == 4;
    }
  }

  /** Consequently "0" and "no" normalise to "true", for every cast. */
  lemma BooleanCastZeroAndNoAreTrue(column: Expr, row: Row, cast: IntCast)
    requires IsStringCell(column, row, cast)
    requires CellOf(column, row, cast) == Some("0") || CellOf(column, row, cast) == Some("no")
    ensures BooleanCast(column, row, cast) == Some(Str("true"))
  {
    BooleanCastMeaning(column, row, cast);
    assert LowerAscii("0") == "0";
    assert LowerAscii("no") == "no";
  }

  /** Two databases whose integer casts differ, but agree that "" is not at
      least 1, normalise every cell alike (for a column whose own value does
      not involve the cast). */
  lemma BooleanCastIndependentOfCast(column: Expr, row: Row, cast1: IntCast, cast2: IntCast)
    requires IsStringCell(column, row, cast1) && Eval(column, row, cast1) == Eval(column, row, cast2)
    requires EmptyCastsBelowOne(cast1) && EmptyCastsBelowOne(cast2)
    ensures BooleanCast(column, row, cast1) == BooleanCast(column, row, cast2)
  {
    BooleanCastIsTrueOrFalse(column, row, cast1);
    BooleanCastIsTrueOrFalse(column, row, cast2);
    BooleanCastSimplified(column, row, cast1);
    BooleanCastSimplified(column, row, cast2);
  }

  // ---------------------------------------------------------------------
  // _get_select_for_column and _build_facet_subquery_for_json_array
  // ---------------------------------------------------------------------

  /** The join alias an ARRAY facet's rows are expanded under. */
  function ArrayAlias(metadata: PropertyMetadataInfo): (alias: string)
    ensures |alias| == |metadata.fieldName| + |ArraySuffix|
    ensures alias[..|metadata.fieldName|] == metadata.fieldName
    ensures alias[|metadata.fieldName|..] == ArraySuffix
  {
    metadata.fieldName + ArraySuffix
  }

  /** The Doris override of the facet select: ARRAY facets select the
      column named by their join alias; other types defer to the base
      builder. */
  function SelectForColumn(metadata: PropertyMetadataInfo): (r: Option<Expr>)
    ensures r.None? <==> metadata.dataType != Array
    ensures r.Some? ==> r.value.LiteralColumn? && r.value.text == ArrayAlias(metadata)
  {
    if metadata.dataType == Array then Some(LiteralColumn(ArrayAlias(metadata))) else None
  }

  /** The ARRAY facet subquery: the base query outer-joined with json_each
      over the first mapping's column under the array alias, grouped by facet
      id and value, as a CTE named after that column. An empty list of field
      mappings raises IndexError; a JSON first mapping, which has no `map_to`,
      raises AttributeError. */
  function BuildFacetSubqueryForJsonArray(baseQuery: Query, metadata: PropertyMetadataInfo): (r: Result<Query, BuildError>)
    ensures r == Failure(IndexError) <==> |metadata.fieldMappings| == 0
    ensures r == Failure(AttributeError) <==> |metadata.fieldMappings| > 0 && metadata.fieldMappings[0].JsonFieldMapping?
    ensures r.Success? ==> r.value.Cte? && r.value.body.GroupBy? && r.value.body.source.OuterJoin?
    ensures r.Success? ==> r.value.body.source.left == baseQuery
  {
    if |metadata.fieldMappings| == 0 then Failure(IndexError)
    else if !metadata.fieldMappings[0].SimpleFieldMapping? then Failure(AttributeError)
    else
      var columnName := metadata.fieldMappings[0].mapTo;
      var alias := ArrayAlias(metadata);
      var jsonEach := TableValued("json_each", LiteralColumn(columnName), ["value"], alias);
      var joined := OuterJoin(baseQuery, jsonEach, SqlTrue);
      Success(Cte(GroupBy(joined, [LiteralColumn("facet_id"), LiteralColumn("facet_value")]),
                  columnName + FacetSubquerySuffix))
  }

  /** For an ARRAY facet, the column the select reads is the alias of the
      json_each join, so the select always refers to the joined table. */
  lemma ArraySelectReadsJoinedTable(baseQuery: Query, metadata: PropertyMetadataInfo)
    requires metadata.dataType == Array && |metadata.fieldMappings| > 0
    requires metadata.fieldMappings[0].SimpleFieldMapping?
    ensures var q := BuildFacetSubqueryForJsonArray(baseQuery, metadata);
      && q.Success? && SelectForColumn(metadata).Some?
      && SelectForColumn(metadata).value == LiteralColumn(q.value.body.source.right.alias)
  {
  }

  /** The CTE is named after the first field mapping's column, which is also
      the column json_each expands; later mappings play no part. */
  lemma FacetCteNamedAfterFirstMapping(baseQuery: Query, metadata: PropertyMetadataInfo)
    requires |metadata.fieldMappings| > 0 && metadata.fieldMappings[0].SimpleFieldMapping?
    ensures var q := BuildFacetSubqueryForJsonArray(baseQuery, metadata);
      && q.Success?
      && q.value.name == metadata.fieldMappings[0].mapTo + FacetSubquerySuffix
      && q.value.body.source.right.argument == LiteralColumn(metadata.fieldMappings[0].mapTo)
      && q.value.body.source.right.funcName == "json_each"
      && q.value == BuildFacetSubqueryForJsonArray(baseQuery, metadata.(fieldMappings := metadata.fieldMappings[..1])).value
  {
  }

  // ---------------------------------------------------------------------
  // _handle_json_mapping
  // ---------------------------------------------------------------------

  /** JSON_UNQUOTE(JSON_EXTRACT(json_prop, path)) where the path names the
      mapping's keys; when no key holds a double quote the path reads back to
      exactly those keys. */
  function HandleJsonMapping(mapping: JsonMapping): (r: Expr)
    ensures r.JsonUnquote? && r.arg.JsonExtract?
    ensures r.arg.doc == LiteralColumn(mapping.jsonProp)
    ensures NoQuotes(mapping.propInJson) ==> SplitJsonPath(r.arg.path) == Some(mapping.propInJson)
  {
    assert NoQuotes(mapping.propInJson) ==> SplitJsonPath(JsonPath(mapping.propInJson)) == Some(mapping.propInJson) by {
      if NoQuotes(mapping.propInJson) {
        SplitJsonPathRoundTrip(mapping.propInJson);
      }
    }
    JsonUnquote(JsonExtract(LiteralColumn(mapping.jsonProp), JsonPath(mapping.propInJson)))
  }
}
