/** An abstract picture of the SQLAlchemy expressions and queries the Doris
    facets builder constructs, and an evaluator for the small fragment of them
    whose value matters to the properties proved here (column reads, literals,
    LOWER, an integer cast and CASE). Everything else (JSON functions, joins,
    grouping, CTEs) is kept as an uninterpreted node that records the names
    and strings it was built from. */
module SqlExpressions {

  /** The facet data types the Doris builder distinguishes; every other
      member of Keep's `DataType` enumeration is carried by name. */
  datatype DataType = Boolean | Array | OtherType(name: string)

  /** A value of the interpreted fragment: SQL NULL, a string or an integer. */
  datatype Value = Null | Str(s: string) | Int(i: int)

  datatype Expr =
    | Col(name: string)                       // a column of the row being faceted
    | LiteralColumn(text: string)             // literal_column(text), read as the column it names
    | Lit(value: string)                      // literal(value), a string literal
    | SqlTrue                                 // true()
    | Lower(arg: Expr)                        // func.lower(arg)
    | CastInt(arg: Expr)                      // cast(arg, Integer)
    | Case(whens: seq<When>, otherwise: Expr) // case(*whens, else_=otherwise)
    | JsonExtract(doc: Expr, path: string)    // func.json_extract(doc, path)
    | JsonUnquote(arg: Expr)                  // func.json_unquote(arg)

  /** The three comparison forms that occur as CASE conditions. */
  datatype Cond =
    | Equals(lhs: Expr, rhs: string)     // lhs == "rhs"
    | NotEquals(lhs: Expr, rhs: string)  // lhs != "rhs"
    | AtLeast(lhs: Expr, bound: int)     // lhs >= bound

  datatype When = When(cond: Cond, result: Expr)

  /** A table-valued function call joined into a query under an alias. */
  datatype TableValued = TableValued(funcName: string, argument: Expr, columns: seq<string>, alias: string)

  datatype Query =
    | InheritedFacetSubquery(facetKey: string, entityIdColumn: Expr, facetPropertyPath: string, facetCel: string)
      // the subquery the base facets builder returns; its construction is not part of this model
    | BaseQuery(tag: string)                              // a query handed in by the caller
    | OuterJoin(left: Query, right: TableValued, on: Expr) // left.outerjoin(right, on)
    | GroupBy(source: Query, keys: seq<Expr>)             // source.group_by(*keys)
    | Cte(body: Query, name: string)                      // body.cte(name)
    | Limit(source: Query, count: nat)                    // source.limit(count)

  /** The contents of a row: each column holds a nullable string. */
  type Row = string -> Option<string>

  /** The database's conversion of a string to an integer; None is a NULL
      result. Its behaviour is left open: every lemma is stated for all casts,
      or for those satisfying an explicitly named assumption. */
  type IntCast = string -> Option<int>

  datatype Option<+T> = None | Some(value: T)

  /** ASCII lower-casing of one character, as LOWER does for ASCII text. */
  function LowerChar(c: char): (d: char)
    ensures 'A' <= c <= 'Z' ==> d as int == c as int + 32
    ensures !('A' <= c <= 'Z') ==> d == c
    ensures !('A' <= d <= 'Z')
  {
    if 'A' <= c <= 'Z' then (c as int + 32) as char else c
  }

  /** LOWER applied to a string: same length, every character lower-cased. */
  function LowerAscii(s: string): (r: string)
    ensures |r| == |s|
    ensures forall i :: 0 <= i < |s| ==> r[i] == LowerChar(s[i])
  {
    seq(|s|, i requires 0 <= i < |s| => LowerChar(s[i]))
  }

  /** Whether a CASE condition selects its branch for the value `v` of its
      left-hand side. SQL's UNKNOWN (a comparison with NULL) does not select a
      branch, so it is reported as Some(false); a comparison between a string
      and an integer lies outside the interpreted fragment and gives None. */
  function Selects(c: Cond, v: Value): (r: Option<bool>)
    ensures v.Null? ==> r == Some(false)
  {
    match c
    case Equals(_, rhs) =>
      (match v
       case Null => Some(false)
       case Str(s) => Some(s == rhs)
       case Int(_) => None)
    case NotEquals(_, rhs) =>
      (match v
       case Null => Some(false)
       case Str(s) => Some(s != rhs)
       case Int(_) => None)
    case AtLeast(_, bound) =>
      (match v
       case Null => Some(false)
       case Int(i) => Some(i >= bound)
       case Str(_) => None)
  }

  /** The value of `e` in `row`; None when `e` (or a part of it that is
      reached) lies outside the interpreted fragment. */
  function Eval(e: Expr, row: Row, cast: IntCast): Option<Value>
    decreases e, if e.Case? then |e.whens| + 1 else 0
  {
    match e
    case Col(name) => Some(if row(name).None? then Null else Str(row(name).value))
    case LiteralColumn(text) => Some(if row(text).None? then Null else Str(row(text).value))
    case Lit(s) => Some(Str(s))
    case Lower(a) =>
      (match Eval(a, row, cast)
       case Some(Null) => Some(Null)
       case Some(Str(s)) => Some(Str(LowerAscii(s)))
       case _ => None)
    case CastInt(a) =>
      (match Eval(a, row, cast)
       case Some(Null) => Some(Null)
       case Some(Str(s)) => Some(if cast(s).None? then Null else Int(cast(s).value))
       case Some(Int(i)) => Some(Int(i))
       case None => None)
    case Case(_, _) => EvalCaseFrom(e, 0, row, cast)
    case _ => None
  }

  /** CASE evaluation from the `i`-th WHEN onwards: the first branch whose
      condition selects gives the result, otherwise the ELSE expression. */
  function EvalCaseFrom(e: Expr, i: nat, row: Row, cast: IntCast): Option<Value>
    requires e.Case? && i <= |e.whens|
    decreases e, |e.whens| - i
  {
    if i == |e.whens| then Eval(e.otherwise, row, cast)
    else
      assert e.whens[i] in e.whens;
      match Eval(e.whens[i].cond.lhs, row, cast)
      case None => None
      case Some(v) =>
        match Selects(e.whens[i].cond, v)
        case None => None
        case Some(true) => Eval(e.whens[i].result, row, cast)
        case Some(false) => EvalCaseFrom(e, i + 1, row, cast)
  }

  /** The rows a facet query yields, given the rows of the inherited
      subquery; None for query shapes whose rows are not interpreted here. */
  function OptionRows<R>(q: Query, inheritedRows: seq<R>): Option<seq<R>>
  {
    match q
    case InheritedFacetSubquery(_, _, _, _) => Some(inheritedRows)
    case Limit(source, n) =>
      (match OptionRows(source, inheritedRows)
       case Some(rs) => Some(if |rs| <= n then rs else rs[..n])
       case None => None)
    case _ => None
  }
}
