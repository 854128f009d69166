/** The JSON path the Doris facets builder hands to JSON_EXTRACT: the
    property names of a JSON field mapping, each wrapped in double quotes,
    joined with dots and prefixed with `$.`, and a parser that reads such a
    path back into its property names. */
module DorisJsonPath {

  import opened SqlExpressions

  /** One property name as a quoted path member. */
  function Quote(item: string): string {
    "\"" + item + "\""
  }

  /** The quoted members joined with ".", as Python's ".".join does
      (the empty list joins to the empty string). */
  function QuotedJoin(items: seq<string>): string
  {
    if |items| == 0 then ""
    else if |items| == 1 then Quote(items[0])
    else Quote(items[0]) + "." + QuotedJoin(items[1..])
  }

  /** The path built for `prop_in_json`. */
  function JsonPath(propInJson: seq<string>): (path: string)
    ensures |path| >= 2 && path[..2] == "$."
  {
    "$." + QuotedJoin(propInJson)
  }

  /** No property name contains a double quote. */
  predicate NoQuotes(items: seq<string>) {
    forall i :: 0 <= i < |items| ==> '"' !in items[i]
  }

  /** Total number of characters the quoted members take: each name plus its
      two quotes. */
  function QuotedLength(items: seq<string>): nat {
    if |items| == 0 then 0 else |items[0]| + 2 + QuotedLength(items[1..])
  }

  /** The first position at or after `from` that holds a double quote, or |s|
      when there is none. */
  function IndexOfQuote(s: string, from: nat): (k: nat)
    requires from <= |s|
    ensures from <= k <= |s|
    ensures k < |s| ==> s[k] == '"'
    ensures forall j :: from <= j < k ==> s[j] != '"'
    decreases |s| - from
  {
    if from == |s| || s[from] == '"' then from else IndexOfQuote(s, from + 1)
  }

  /** Reads `"a"."b"...` back into the names between the quotes. */
  function ParseQuotedItems(s: string): Option<seq<string>>
    decreases |s|
  {
    if |s| < 2 || s[0] != '"' then None
    else
      var k := IndexOfQuote(s, 1);
      if k == |s| then None
      else if k + 1 == |s| then Some([s[1..k]])
      else if s[k + 1] != '.' then None
      else
        match ParseQuotedItems(s[k + 2..])
        case None => None
        case Some(rest) => Some([s[1..k]] + rest)
  }

  /** Splits a path after its `$.` prefix into the quoted property names. */
  function SplitJsonPath(path: string): Option<seq<string>>
  {
    if |path| < 2 || path[..2] != "$." then None
    else if |path| == 2 then Some([])
    else ParseQuotedItems(path[2..])
  }

  /** The length of a built path: two characters of prefix, each name with
      its quotes, and one dot between consecutive names. */
  lemma {:induction false} JsonPathLength(propInJson: seq<string>)
    ensures |propInJson| >= 1 ==>
      |JsonPath(propInJson)| == 2 + QuotedLength(propInJson) + (|propInJson| - 1)
    ensures |propInJson| == 0 ==> JsonPath(propInJson) == "$."
  {
    QuotedJoinLength(propInJson);
  }

  lemma {:induction false} QuotedJoinLength(items: seq<string>)
    ensures |items| >= 1 ==> |QuotedJoin(items)| == QuotedLength(items) + (|items| - 1)
    ensures |items| == 0 ==> QuotedJoin(items) == ""
  {
    if |items| > 1 {
      QuotedJoinLength(items[1..]);
    }
  }

  /** The first quote after the opening one in `"x"...` closes the name `x`,
      when `x` has no quote in it. */
  lemma QuoteClosesName(item: string, tail: string)
    requires '"' !in item
    ensures IndexOfQuote(Quote(item) + tail, 1) == |item| + 1
  {
    var s := Quote(item) + tail;
    var k := IndexOfQuote(s, 1);
    assert s[|item| + 1] == '"';
    forall j | 1 <= j < |item| + 1 ensures s[j] != '"' {
      assert s[j] == item[j - 1];
    }
  }

  /** A single quoted name parses back to that name. */
  lemma ParseSingle(item: string)
    requires '"' !in item
    ensures ParseQuotedItems(Quote(item)) == Some([item])
  {
    var s := Quote(item);
    QuoteClosesName(item, "");
    assert s + "" == s;
    assert s[1..|item| + 1] == item;
  }

  /** A quoted name followed by a dot and more members parses to that name
      in front of what the rest parses to. */
  lemma ParseCons(item: string, r: string, rest: seq<string>)
    requires '"' !in item
    requires ParseQuotedItems(r) == Some(rest)
    ensures ParseQuotedItems(Quote(item) + "." + r) == Some([item] + rest)
  {
    var s := Quote(item) + "." + r;
    var k := |item| + 1;
    QuoteClosesName(item, "." + r);
    assert s == Quote(item) + ("." + r);
    assert s[1..k] == item;
    assert s[k + 1] == '.';
    assert s[k + 2..] == r;
  }

  lemma {:induction false} ParseQuotedJoin(items: seq<string>)
    requires |items| >= 1 && NoQuotes(items)
    ensures ParseQuotedItems(QuotedJoin(items)) == Some(items)
  {
    assert '"' !in items[0];
    if |items| == 1 {
      ParseSingle(items[0]);
      assert QuotedJoin(items) == Quote(items[0]);
      assert [items[0]] == items;
    } else {
      assert NoQuotes(items[1..]) by {
        forall i | 0 <= i < |items[1..]| ensures '"' !in items[1..][i] {
          assert items[1..][i] == items[i + 1];
        }
      }
      ParseQuotedJoin(items[1..]);
      ParseCons(items[0], QuotedJoin(items[1..]), items[1..]);
      assert [items[0]] + items[1..] == items;
    }
  }

  /** Round trip: when no property name holds a double quote, splitting the
      built path recovers exactly the list of names it was built from. */
  lemma {:induction false} SplitJsonPathRoundTrip(propInJson: seq<string>)
    requires NoQuotes(propInJson)
    ensures SplitJsonPath(JsonPath(propInJson)) == Some(propInJson)
  {
    var path := JsonPath(propInJson);
    if |propInJson| == 0 {
      assert path == "$.";
    } else {
      ParseQuotedJoin(propInJson);
      QuotedJoinLength(propInJson);
      assert path[2..] == QuotedJoin(propInJson);
    }
  }

  /** Without that condition the path does not determine the names: one name
      holding `"."` gives the same path as two names. */
  lemma PathNotInjectiveWithQuotes()
    ensures JsonPath(["a\".\"b"]) == JsonPath(["a", "b"])
    ensures !NoQuotes(["a\".\"b"])
  {
    assert QuotedJoin(["a", "b"]) == Quote("a") + "." + QuotedJoin(["b"]);
    assert "a\".\"b"[1] == '"';
  }
}
