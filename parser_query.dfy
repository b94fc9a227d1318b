/** The clauses of a CQL query and the query itself: each printed clause
    reads back as the value it was printed from, and so does a whole query
    (server/parser.py, `Select` to `Query`). */
module ParserQuery {
  import opened Wrappers
  import opened Parser
  import opened ParserTokens
  import opened ParserGrammar

  // -----------------------------------------------------------------------
  // SELECT

  /** What follows an element of a parenthesised list: `,` or `)`. */
  predicate ListEnd(rest: string)
  {
    rest != [] && (rest[0] == ',' || rest[0] == ')')
  }

  lemma ListEndStops(rest: string)
    requires ListEnd(rest)
    ensures PathStops(rest) && SkipWhitespace(rest) == rest
  {
    SkipWhitespaceAt(rest);
  }

  /** Only identifier characters and dots. */
  predicate PathChars(s: string)
  {
    forall i :: 0 <= i < |s| ==> IsIdentChar(s[i]) || s[i] == '.'
  }

  /** A printed path holds only identifier characters and dots. */
  lemma {:induction false} PathTailTextChars(ws: seq<string>)
    requires forall i :: 0 <= i < |ws| ==> IsIdentifier(ws[i])
    ensures PathChars(PathTailText(ws))
    decreases |ws|
  {
    if ws != [] {
      PathTailTextChars(ws[1..]);
      var s := PathTailText(ws);
      var w, more := ws[0], PathTailText(ws[1..]);
      assert s == "." + w + more;
      forall i | 0 <= i < |s|
        ensures IsIdentChar(s[i]) || s[i] == '.'
      {
        if i == 0 {
          assert s[0] == '.';
        } else if i <= |w| {
          assert s[i] == w[i - 1];
          assert IsIdentChar(w[i - 1]);
        } else {
          var k := i - 1 - |w|;
          assert s[i] == more[k];
          assert IsIdentChar(more[k]) || more[k] == '.';
        }
      }
    }
  }

  lemma PathTextChars(p: Path)
    requires IsPath(p)
    ensures PathChars(PathText(p))
  {
    PathTailTextChars(p[1..]);
    var s := PathText(p);
    forall i | 0 <= i < |s|
      ensures IsIdentChar(s[i]) || s[i] == '.'
    {
      if i >= |p[0]| {
        assert s[i] == PathTailText(p[1..])[i - |p[0]|];
      }
    }
  }

  /** A keyword that ends in `:` and holds no `,` or `)` cannot start a
      text whose colon-free prefix runs up to a list delimiter. */
  lemma KeywordAbsent(u: string, n: nat, kw: string)
    requires kw != [] && kw[|kw| - 1] == ':'
    requires forall i :: 0 <= i < |kw| ==> kw[i] != ',' && kw[i] != ')'
    requires n < |u| && (u[n] == ',' || u[n] == ')')
    requires forall i :: 0 <= i < n ==> u[i] != ':'
    ensures !StartsWith(u, kw)
  {
  }

  /** A field element of SELECT is never mistaken for an aggregation. */
  lemma FieldIsNotAggregation(t: string, p: Path, rest: string)
    requires IsPath(p) && ListEnd(rest) && SkipWhitespace(t) == PathText(p) + rest
    ensures ParseAggregation(t).Failure?
  {
    var u := SkipWhitespace(t);
    var n := |PathText(p)|;
    assert u[n] == rest[0];
    assert forall i :: 0 <= i < n ==> u[i] != ':' by {
      PathTextChars(p);
      forall i | 0 <= i < n
        ensures u[i] != ':'
      {
        assert u[i] == PathText(p)[i];
      }
    }
    forall a: Aggregator
      ensures !StartsWith(u, AggregatorKeyword(a))
    {
      AggregatorKeywordShape(a);
      KeywordAbsent(u, n, AggregatorKeyword(a));
    }
    AggregatorSpec(t);
  }

  /** Every aggregator keyword ends in its colon and holds no list
      delimiter. */
  lemma AggregatorKeywordShape(a: Aggregator)
    ensures var kw := AggregatorKeyword(a);
      && kw != [] && kw[|kw| - 1] == ':'
      && forall i :: 0 <= i < |kw| ==> kw[i] != ',' && kw[i] != ')'
  {
    match a
    case Sum =>
    case Avg =>
    case Count =>
    case Min =>
    case Max =>
  }

  lemma SelectItemRoundTrip(t: string, it: SelectItem, rest: string)
    requires PrintableSelectItem(it) && ListEnd(rest)
    requires SkipWhitespace(t) == SelectItemText(it) + rest
    ensures ParseSelectItem(t) == Success(it, rest)
  {
    match it
    case FieldItem(p) =>
      FieldItemRoundTrip(t, p, rest);
    case AggregationItem(a, p) =>
      ListEndStops(rest);
      AggregationRoundTrip(t, a, p, rest);
  }

  lemma FieldItemRoundTrip(t: string, p: Path, rest: string)
    requires IsPath(p) && ListEnd(rest)
    requires SkipWhitespace(t) == PathText(p) + rest
    ensures ParseSelectItem(t) == Success(FieldItem(p), rest)
  {
    ListEndStops(rest);
    FieldIsNotAggregation(t, p, rest);
    PathRoundTrip(t, p, rest);
  }

  /** `SUM: field1.field2` and its kin: the aggregator, then the path. */
  lemma AggregationRoundTrip(t: string, a: Aggregator, p: Path, rest: string)
    requires IsPath(p) && PathStops(rest)
    requires SkipWhitespace(t) == AggregatorKeyword(a) + " " + PathText(p) + rest
    ensures ParseAggregation(t) == Success(AggregationItem(a, p), rest)
    ensures ParseSelectItem(t) == Success(AggregationItem(a, p), rest)
  {
    var after := " " + PathText(p) + rest;
    AggregatorThenBlank(t, a, PathText(p), rest);
    BlankThenPath(p, rest);
    AggregationFromParts(t, a, after, p, rest);
  }

  lemma AggregatorThenBlank(t: string, a: Aggregator, s: string, rest: string)
    requires SkipWhitespace(t) == AggregatorKeyword(a) + " " + s + rest
    ensures ParseAggregator(t) == Success(a, " " + s + rest)
  {
    Concat4(AggregatorKeyword(a), " ", s, rest);
    AggregatorRoundTrip(t, a, " " + s + rest);
  }

  lemma Concat4(a: string, b: string, c: string, d: string)
    ensures a + b + c + d == a + (b + c + d)
  {
  }

  lemma AggregationFromParts(t: string, a: Aggregator, after: string, p: Path, rest: string)
    requires ParseAggregator(t) == Success(a, after) && ParsePath(after) == Success(p, rest)
    ensures ParseAggregation(t) == Success(AggregationItem(a, p), rest)
    ensures ParseSelectItem(t) == Success(AggregationItem(a, p), rest)
  {
  }

  lemma BlankPath(p: Path, rest: string)
    requires IsPath(p) && PathStops(rest)
    ensures ParsePath(" " + (PathText(p) + rest)) == Success(p, rest)
  {
    assert " " + (PathText(p) + rest) == " " + PathText(p) + rest;
    BlankThenPath(p, rest);
  }

  /** A printed select item opens with a letter. */
  lemma SelectItemStart(it: SelectItem)
    requires PrintableSelectItem(it)
    ensures var s := SelectItemText(it); s != [] && IsLetter(s[0])
  {
    match it
    case FieldItem(p) =>
      assert PathText(p)[0] == p[0][0];
    case AggregationItem(a, p) =>
      var name := AggregatorName(a);
      assert SelectItemText(it)[0] == name[0];
  }

  lemma SelectTailStart(items: seq<SelectItem>, rest: string)
    requires forall i :: 0 <= i < |items| ==> PrintableSelectItem(items[i])
    requires rest != [] && rest[0] == ')'
    ensures ListEnd(SelectTailText(items) + rest)
  {
    if items != [] {
      assert (SelectTailText(items) + rest)[0] == ',';
    } else {
      assert SelectTailText(items) + rest == rest;
    }
  }

  lemma SelectTailSplit(items: seq<SelectItem>, rest: string)
    requires items != [] && forall i :: 0 <= i < |items| ==> PrintableSelectItem(items[i])
    ensures SelectTailText(items) + rest ==
      "," + (" " + (SelectItemText(items[0]) + (SelectTailText(items[1..]) + rest)))
  {
    var x, y := SelectItemText(items[0]), SelectTailText(items[1..]);
    SelectTailUnfold(items, x, y);
    SeparatorSplit(x, y, rest);
  }

  lemma SelectTailUnfold(items: seq<SelectItem>, x: string, y: string)
    requires items != [] && forall i :: 0 <= i < |items| ==> PrintableSelectItem(items[i])
    requires x == SelectItemText(items[0]) && y == SelectTailText(items[1..])
    ensures SelectTailText(items) == "," + " " + x + y
  {
  }

  lemma SeparatorSplit(item: string, tail: string, rest: string)
    ensures "," + " " + item + tail + rest == "," + (" " + (item + (tail + rest)))
  {
  }

  lemma SelectTailStep(items: seq<SelectItem>, rest: string)
    requires items != [] && forall i :: 0 <= i < |items| ==> PrintableSelectItem(items[i])
    requires rest != [] && rest[0] == ')'
    ensures var after := SelectTailText(items[1..]) + rest;
      var x := " " + (SelectItemText(items[0]) + after);
      Token(SelectTailText(items) + rest, ",") == Some(x)
      && ParseSelectItem(x) == Success(items[0], after)
  {
    var after := SelectTailText(items[1..]) + rest;
    var x := " " + (SelectItemText(items[0]) + after);
    SelectTailSplit(items, rest);
    TokenFirst(SelectTailText(items) + rest, ",", x);
    SelectTailStart(items[1..], rest);
    BlankSelectItem(items[0], after);
  }

  lemma BlankSelectItem(it: SelectItem, after: string)
    requires PrintableSelectItem(it) && ListEnd(after)
    ensures ParseSelectItem(" " + (SelectItemText(it) + after)) == Success(it, after)
  {
    SelectItemStart(it);
    SkipWhitespaceAt(SelectItemText(it) + after);
    SelectItemRoundTrip(" " + (SelectItemText(it) + after), it, after);
  }

  lemma SelectTailFromParts(t: string, x: string, it: SelectItem, after: string,
                            more: seq<SelectItem>, rest: string)
    requires Token(t, ",") == Some(x) && ParseSelectItem(x) == Success(it, after)
    requires ParseSelectTail(after) == (more, rest)
    ensures ParseSelectTail(t) == ([it] + more, rest)
  {
  }

  /** The `, item` repetitions read back every printed item and stop at
      the closing parenthesis. */
  lemma {:induction false} SelectTailRoundTrip(items: seq<SelectItem>, rest: string)
    requires forall i :: 0 <= i < |items| ==> PrintableSelectItem(items[i])
    requires rest != [] && rest[0] == ')'
    ensures ParseSelectTail(SelectTailText(items) + rest) == (items, rest)
    decreases |items|
  {
    if items == [] {
      assert SelectTailText(items) + rest == rest;
      SkipWhitespaceAt(rest);
      TokenMissing(rest, ",", 0);
    } else {
      var after := SelectTailText(items[1..]) + rest;
      var x := " " + (SelectItemText(items[0]) + after);
      SelectTailStep(items, rest);
      SelectTailRoundTrip(items[1..], rest);
      SelectTailFromParts(SelectTailText(items) + rest, x, items[0], after, items[1..], rest);
      assert items == [items[0]] + items[1..];
    }
  }

  /** How a parenthesised list after a keyword splits into tokens. */
  lemma ListSplit(kw: string, first: string, tail: string, rest: string)
    ensures kw + " " + "(" + first + tail + ")" + rest ==
      kw + (" " + ("(" + (first + (tail + (")" + rest)))))
  {
  }

  lemma OpenList(t: string, kw: string, body: string)
    requires kw != [] && !IsWhitespace(kw[0]) && body != [] && IsLetter(body[0])
    requires SkipWhitespace(t) == kw + (" " + ("(" + body))
    ensures Token(t, kw) == Some(" " + ("(" + body))
    ensures Token(" " + ("(" + body), "(") == Some(body)
    ensures SkipWhitespace(body) == body
  {
    TokenAt(t, kw, " " + ("(" + body));
    SkipWhitespaceAt("(" + body);
    TokenAt(" " + ("(" + body), "(", body);
    SkipWhitespaceAt(body);
  }

  lemma SelectFromParts(t: string, r1: string, r2: string, items: seq<SelectItem>, r3: string, rest: string)
    requires items != []
    requires Token(t, "SELECT:") == Some(r1) && Token(r1, "(") == Some(r2)
    requires ParseSelectItem(r2) == Success(items[0], r3)
    requires ParseSelectTail(r3) == (items[1..], ")" + rest)
    ensures ParseSelect(t) == Success(items, rest)
  {
    TokenFirst(")" + rest, ")", rest);
    assert items == [items[0]] + items[1..];
  }

  /** `SELECT: ( item, ... )` reads back its items, in order. */
  lemma SelectRoundTrip(t: string, items: seq<SelectItem>, rest: string)
    requires PrintableSelect(items)
    requires SkipWhitespace(t) == SelectText(items) + rest
    ensures ParseSelect(t) == Success(items, rest)
  {
    var first, tail := SelectItemText(items[0]), SelectTailText(items[1..]);
    var body := first + (tail + (")" + rest));
    SelectTextSplit(items, first, tail, rest);
    SelectItemStart(items[0]);
    OpenList(t, "SELECT:", body);
    SelectBody(items, rest);
    SelectFromParts(t, " " + ("(" + body), body, items, tail + (")" + rest), rest);
  }

  lemma SelectTextSplit(items: seq<SelectItem>, first: string, tail: string, rest: string)
    requires PrintableSelect(items)
    requires first == SelectItemText(items[0]) && tail == SelectTailText(items[1..])
    ensures SelectText(items) + rest == "SELECT:" + (" " + ("(" + (first + (tail + (")" + rest)))))
  {
    assert SelectText(items) == "SELECT:" + " " + "(" + first + tail + ")";
    ListSplit("SELECT:", first, tail, rest);
  }

  /** Inside the parentheses: the first item, then the `, item` tail. */
  lemma SelectBody(items: seq<SelectItem>, rest: string)
    requires PrintableSelect(items)
    ensures var tail := SelectTailText(items[1..]) + (")" + rest);
      ParseSelectItem(SelectItemText(items[0]) + tail) == Success(items[0], tail)
      && ParseSelectTail(tail) == (items[1..], ")" + rest)
  {
    var first, tail := SelectItemText(items[0]), SelectTailText(items[1..]) + (")" + rest);
    SelectTailStart(items[1..], ")" + rest);
    SelectItemStart(items[0]);
    SkipWhitespaceAt(first + tail);
    SelectItemRoundTrip(first + tail, items[0], tail);
    SelectTailRoundTrip(items[1..], ")" + rest);
  }

  // -----------------------------------------------------------------------
  // GROUPBY and ORDERBY

  lemma FieldListTailStart(ps: seq<Path>, rest: string)
    requires ArePaths(ps) && rest != [] && rest[0] == ')'
    ensures ListEnd(FieldListTailText(ps) + rest)
  {
    if ps != [] {
      assert (FieldListTailText(ps) + rest)[0] == ',';
    } else {
      assert FieldListTailText(ps) + rest == rest;
    }
  }

  lemma FieldListTailStep(ps: seq<Path>, rest: string)
    requires ps != [] && ArePaths(ps) && rest != [] && rest[0] == ')'
    ensures var after := FieldListTailText(ps[1..]) + rest;
      var x := " " + (PathText(ps[0]) + after);
      Token(FieldListTailText(ps) + rest, ",") == Some(x)
      && ParsePath(x) == Success(ps[0], after)
  {
    var after := FieldListTailText(ps[1..]) + rest;
    var x := " " + (PathText(ps[0]) + after);
    assert FieldListTailText(ps) == "," + " " + PathText(ps[0]) + FieldListTailText(ps[1..]);
    SeparatorSplit(PathText(ps[0]), FieldListTailText(ps[1..]), rest);
    TokenFirst(FieldListTailText(ps) + rest, ",", x);
    FieldListTailStart(ps[1..], rest);
    ListEndStops(after);
    BlankPath(ps[0], after);
  }

  lemma FieldListTailFromParts(t: string, x: string, p: Path, after: string,
                               more: seq<Path>, rest: string)
    requires Token(t, ",") == Some(x) && ParsePath(x) == Success(p, after)
    requires ParsePathListTail(after) == (more, rest)
    ensures ParsePathListTail(t) == ([p] + more, rest)
  {
  }

  lemma {:induction false} FieldListTailRoundTrip(ps: seq<Path>, rest: string)
    requires ArePaths(ps) && rest != [] && rest[0] == ')'
    ensures ParsePathListTail(FieldListTailText(ps) + rest) == (ps, rest)
    decreases |ps|
  {
    if ps == [] {
      assert FieldListTailText(ps) + rest == rest;
      SkipWhitespaceAt(rest);
      TokenMissing(rest, ",", 0);
    } else {
      var after := FieldListTailText(ps[1..]) + rest;
      var x := " " + (PathText(ps[0]) + after);
      FieldListTailStep(ps, rest);
      FieldListTailRoundTrip(ps[1..], rest);
      FieldListTailFromParts(FieldListTailText(ps) + rest, x, ps[0], after, ps[1..], rest);
      assert ps == [ps[0]] + ps[1..];
    }
  }

  lemma FieldListFromParts(t: string, kw: string, r1: string, r2: string, first: Path, r3: string,
                           more: seq<Path>, rest: string)
    requires kw != []
    requires Token(t, kw) == Some(r1) && Token(r1, "(") == Some(r2)
    requires ParsePath(r2) == Success(first, r3)
    requires ParsePathListTail(r3) == (more, ")" + rest)
    ensures ParseFieldList(t, kw) == Success([first] + more, rest)
  {
    TokenFirst(")" + rest, ")", rest);
  }

  /** `GROUPBY: ( Field, ... )` and `ORDERBY: ( Field, ... )` read back
      their paths, in order. */
  lemma FieldListRoundTrip(t: string, kw: string, ps: seq<Path>, rest: string)
    requires kw != [] && !IsWhitespace(kw[0])
    requires |ps| >= 1 && ArePaths(ps)
    requires SkipWhitespace(t) == FieldListText(kw, ps) + rest
    ensures ParseFieldList(t, kw) == Success(ps, rest)
  {
    var first, tail := PathText(ps[0]), FieldListTailText(ps[1..]);
    var body := first + (tail + (")" + rest));
    ListSplit(kw, first, tail, rest);
    assert first[0] == ps[0][0][0];
    OpenList(t, kw, body);
    FieldListTailStart(ps[1..], ")" + rest);
    ListEndStops(tail + (")" + rest));
    PathRoundTrip(body, ps[0], tail + (")" + rest));
    FieldListTailRoundTrip(ps[1..], ")" + rest);
    FieldListFromParts(t, kw, " " + ("(" + body), body, ps[0], tail + (")" + rest), ps[1..], rest);
    assert ps == [ps[0]] + ps[1..];
  }

  lemma RejectSplit(kw: string, p: string, name: string, q: string)
    ensures kw + " " + "(" + p + "," + " " + (name + ":") + " " + q + ")" ==
      kw + (" " + ("(" + (p + ("," + (" " + (name + (":" + " " + q + ")")))))))
  {
  }

  lemma FieldListFailsAtClose(t: string, kw: string, r1: string, r2: string, first: Path,
                              r3: string, more: seq<Path>, r4: string)
    requires kw != []
    requires Token(t, kw) == Some(r1) && Token(r1, "(") == Some(r2)
    requires ParsePath(r2) == Success(first, r3) && ParsePathListTail(r3) == (more, r4)
    requires Token(r4, ")") == None
    ensures ParseFieldList(t, kw).Failure?
  {
  }

  /** After `, SUM` the list reader is left at `: field)`: the aggregator's
      letters are taken for a field and its colon ends the list. */
  lemma AggregationInFieldList(name: string, q: string)
    requires IsIdentifier(name)
    ensures var colon := ":" + " " + q + ")";
      ParsePathListTail("," + (" " + (name + colon))) == ([[name]], colon)
      && Token(colon, ")") == None
  {
    var colon := ":" + " " + q + ")";
    SkipWhitespaceAt(colon);
    assert PathStops(colon);
    assert PathText([name]) == name;
    BlankPath([name], colon);
    TokenFirst("," + (" " + (name + colon)), ",", " " + (name + colon));
    TokenMissing(colon, ",", 0);
    TokenMissing(colon, ")", 0);
    assert ParsePathListTail(colon) == ([], colon);
    FieldListTailFromParts("," + (" " + (name + colon)), " " + (name + colon), [name], colon, [], colon);
    assert [[name]] + [] == [[name]];
  }

  /** GROUPBY and ORDERBY take fields only: an aggregation in the list is
      a syntax error. */
  lemma FieldListRejectsAggregation(t: string, kw: string, p: Path, a: Aggregator, q: Path)
    requires kw != [] && !IsWhitespace(kw[0]) && IsPath(p) && IsPath(q)
    requires SkipWhitespace(t) ==
      kw + " " + "(" + PathText(p) + "," + " " + AggregatorKeyword(a) + " " + PathText(q) + ")"
    ensures ParseFieldList(t, kw).Failure?
  {
    var name := AggregatorName(a);
    var colon := ":" + " " + PathText(q) + ")";
    var after := "," + (" " + (name + colon));
    var body := PathText(p) + after;
    RejectSplit(kw, PathText(p), name, PathText(q));
    assert PathText(p)[0] == p[0][0];
    OpenList(t, kw, body);
    ListEndStops(after);
    PathRoundTrip(body, p, after);
    AggregationInFieldList(name, PathText(q));
    FieldListFailsAtClose(t, kw, " " + ("(" + body), body, p, after, [[name]], colon);
  }

  /** The two rejections the parser's tests expect. */
  lemma GroupByOrderByRejectAggregation(kw: string)
    requires kw == "GROUPBY:" || kw == "ORDERBY:"
    ensures Complete(ParseFieldList(kw + " (field1, SUM: field2)", kw)).Err?
  {
    KeywordRejectsAggregation(kw);
  }

  lemma KeywordRejectsAggregation(kw: string)
    requires kw != [] && !IsWhitespace(kw[0])
    ensures Complete(ParseFieldList(kw + " (field1, SUM: field2)", kw)).Err?
  {
    var t := kw + " (field1, SUM: field2)";
    assert PathText(["field1"]) == "field1";
    assert PathText(["field2"]) == "field2";
    assert t == kw + " " + "(" + "field1" + "," + " " + "SUM:" + " " + "field2" + ")";
    SkipWhitespaceAt(t);
    FieldListRejectsAggregation(t, kw, ["field1"], Sum, ["field2"]);
  }

  // -----------------------------------------------------------------------
  // MODEL, ALIAS and JOINON

  /** After a name that may carry an alias: nothing that continues the
      name, and no `ALIAS:` next. */
  predicate AliasStops(rest: string)
  {
    (rest == [] || !IsIdentChar(rest[0])) && !StartsWith(SkipWhitespace(rest), "ALIAS:")
  }

  lemma AliasSomeSplit(a: string, rest: string)
    ensures AliasText(Some(a)) + rest == " " + ("ALIAS:" + (" " + (a + rest)))
  {
  }

  /** The optional alias reads back as itself, present or absent. */
  lemma OptionalAliasRoundTrip(alias: Option<string>, rest: string)
    requires PrintableAlias(alias) && AliasStops(rest)
    ensures var t := AliasText(alias) + rest; Optional(ParseAlias(t), t) == (alias, rest)
  {
    match alias
    case None =>
      assert AliasText(alias) + rest == rest;
      TokenSpec(rest, "ALIAS:");
    case Some(a) =>
      var t := AliasText(alias) + rest;
      AliasSomeSplit(a, rest);
      SkipWhitespaceAt("ALIAS:" + (" " + (a + rest)));
      TokenAt(t, "ALIAS:", " " + (a + rest));
      SkipWhitespaceAt(a + rest);
      IdentifierRoundTrip(" " + (a + rest), a, rest);
  }

  /** What follows a printed alias or the name before it: its first
      character is a blank, or the text ends. */
  lemma AliasTextBoundary(alias: Option<string>, rest: string)
    requires rest == [] || !IsIdentChar(rest[0])
    ensures var s := AliasText(alias) + rest; s == [] || !IsIdentChar(s[0])
  {
    if alias.Some? {
      AliasSomeSplit(alias.value, rest);
    } else {
      assert AliasText(alias) + rest == rest;
    }
  }

  lemma ModelFromParts(t: string, r1: string, name: string, r2: string,
                       alias: Option<string>, rest: string)
    requires Token(t, "MODEL:") == Some(r1) && ParseIdentifier(r1) == Success(name, r2)
    requires Optional(ParseAlias(r2), r2) == (alias, rest)
    ensures ParseModel(t) == Success(ModelClause(name, alias), rest)
  {
  }

  lemma Concat5Right(a: string, b: string, c: string, d: string, e: string)
    ensures a + b + c + d + e == a + (b + (c + (d + e)))
  {
  }

  lemma StartsWithConcat(lit: string, y: string)
    ensures StartsWith(lit + y, lit)
  {
    assert (lit + y)[..|lit|] == lit;
  }

  lemma ModelTextSplit(m: ModelClause, after: string, rest: string)
    requires after == AliasText(m.alias) + rest
    ensures ModelText(m) + rest == "MODEL:" + (" " + (m.name + after))
  {
    assert ModelText(m) == "MODEL:" + " " + m.name + AliasText(m.alias);
    Concat5Right("MODEL:", " ", m.name, AliasText(m.alias), rest);
  }

  lemma ModelHead(t: string, name: string, after: string)
    requires IsIdentifier(name) && (after == [] || !IsIdentChar(after[0]))
    requires SkipWhitespace(t) == "MODEL:" + (" " + (name + after))
    ensures Token(t, "MODEL:") == Some(" " + (name + after))
    ensures ParseIdentifier(" " + (name + after)) == Success(name, after)
  {
    TokenAt(t, "MODEL:", " " + (name + after));
    SkipWhitespaceAt(name + after);
    IdentifierRoundTrip(" " + (name + after), name, after);
  }

  /** `MODEL: name [ALIAS: name]` reads back as itself. */
  lemma ModelRoundTrip(t: string, m: ModelClause, rest: string)
    requires IsIdentifier(m.name) && PrintableAlias(m.alias) && AliasStops(rest)
    requires SkipWhitespace(t) == ModelText(m) + rest
    ensures ParseModel(t) == Success(m, rest)
  {
    var after := AliasText(m.alias) + rest;
    ModelTextSplit(m, after, rest);
    AliasTextBoundary(m.alias, rest);
    ModelHead(t, m.name, after);
    OptionalAliasRoundTrip(m.alias, rest);
    ModelFromParts(t, " " + (m.name + after), m.name, after, m.alias, rest);
  }

  /** What may follow a model or a join clause in a printed query: a blank,
      then `JOINON:` or `SELECT:`. */
  predicate ClauseFollows(rest: string)
  {
    |rest| > 1 && rest[0] == ' ' && (StartsWith(rest[1..], "JOINON:") || StartsWith(rest[1..], "SELECT:"))
  }

  lemma ClauseFollowsStops(rest: string)
    requires ClauseFollows(rest)
    ensures AliasStops(rest) && PathStops(rest)
    ensures SkipWhitespace(rest) == rest[1..]
    ensures StartsWith(rest[1..], "SELECT:") ==> ParseJoin(rest).Failure?
  {
    assert rest == [' '] + rest[1..];
    SkipWhitespaceAt(rest[1..]);
    if StartsWith(rest[1..], "SELECT:") {
      TokenMissing(rest, "JOINON:", 0);
    }
  }

  lemma JoinStops(alias: Option<string>, rest: string)
    requires ClauseFollows(rest)
    ensures PathStops(AliasText(alias) + rest)
  {
    ClauseFollowsStops(rest);
    if alias.Some? {
      var a := alias.value;
      AliasSomeSplit(a, rest);
      SkipWhitespaceAt("ALIAS:" + (" " + (a + rest)));
    } else {
      assert AliasText(alias) + rest == rest;
    }
  }

  lemma JoinFromParts(t: string, r1: string, field: Path, r2: string,
                      alias: Option<string>, rest: string)
    requires Token(t, "JOINON:") == Some(r1) && ParsePath(r1) == Success(field, r2)
    requires Optional(ParseAlias(r2), r2) == (alias, rest)
    ensures ParseJoin(t) == Success(JoinClause(field, alias), rest)
  {
  }

  lemma JoinTextSplit(j: JoinClause, after: string, rest: string)
    requires PrintableJoin(j) && after == AliasText(j.alias) + rest
    ensures JoinText(j) + rest == "JOINON:" + (" " + (PathText(j.field) + after))
  {
    assert JoinText(j) == "JOINON:" + " " + PathText(j.field) + AliasText(j.alias);
    Concat5Right("JOINON:", " ", PathText(j.field), AliasText(j.alias), rest);
  }

  lemma JoinHead(t: string, field: Path, after: string)
    requires IsPath(field) && PathStops(after)
    requires SkipWhitespace(t) == "JOINON:" + (" " + (PathText(field) + after))
    ensures Token(t, "JOINON:") == Some(" " + (PathText(field) + after))
    ensures ParsePath(" " + (PathText(field) + after)) == Success(field, after)
  {
    TokenAt(t, "JOINON:", " " + (PathText(field) + after));
    BlankPath(field, after);
  }

  /** `JOINON: Field [ALIAS: name]` reads back as itself. */
  lemma JoinRoundTrip(t: string, j: JoinClause, rest: string)
    requires PrintableJoin(j) && ClauseFollows(rest)
    requires SkipWhitespace(t) == JoinText(j) + rest
    ensures ParseJoin(t) == Success(j, rest)
  {
    var after := AliasText(j.alias) + rest;
    JoinTextSplit(j, after, rest);
    JoinStops(j.alias, rest);
    JoinHead(t, j.field, after);
    ClauseFollowsStops(rest);
    OptionalAliasRoundTrip(j.alias, rest);
    JoinFromParts(t, " " + (PathText(j.field) + after), j.field, after, j.alias, rest);
  }

  /** A blank, then `SELECT:`: what follows the last join. */
  predicate SelectFollows(rest: string)
  {
    |rest| > 1 && rest[0] == ' ' && StartsWith(rest[1..], "SELECT:")
  }

  lemma JoinsTextSplit(js: seq<JoinClause>, rest: string)
    requires js != [] && forall i :: 0 <= i < |js| ==> PrintableJoin(js[i])
    ensures var after := JoinsText(js[1..]) + rest;
      var s := JoinText(js[0]) + after;
      JoinsText(js) + rest == " " + s && StartsWith(s, "JOINON:") && s[0] == 'J'
  {
    var x, y := JoinText(js[0]), JoinsText(js[1..]);
    JoinTextUnfold(js, x, y);
    BlankSplit(x, y, rest);
    JoinTextStart(js[0], y + rest);
  }

  lemma BlankSplit(x: string, y: string, rest: string)
    ensures " " + x + y + rest == " " + (x + (y + rest))
  {
  }

  lemma JoinTextStart(j: JoinClause, y: string)
    requires PrintableJoin(j)
    ensures StartsWith(JoinText(j) + y, "JOINON:") && (JoinText(j) + y)[0] == 'J'
  {
    var after := AliasText(j.alias) + y;
    JoinTextSplit(j, after, y);
    StartsWithConcat("JOINON:", " " + (PathText(j.field) + after));
  }

  lemma JoinTextUnfold(js: seq<JoinClause>, x: string, y: string)
    requires js != [] && forall i :: 0 <= i < |js| ==> PrintableJoin(js[i])
    requires x == JoinText(js[0]) && y == JoinsText(js[1..])
    ensures JoinsText(js) == " " + x + y
  {
  }

  lemma {:induction false} JoinsFollow(js: seq<JoinClause>, rest: string)
    requires forall i :: 0 <= i < |js| ==> PrintableJoin(js[i])
    requires SelectFollows(rest)
    ensures ClauseFollows(JoinsText(js) + rest)
  {
    if js == [] {
      assert JoinsText(js) == "";
      EmptyPrefix(rest);
      SelectFollowsClause(rest);
    } else {
      JoinsTextSplit(js, rest);
      BlankJoinFollows(JoinText(js[0]) + (JoinsText(js[1..]) + rest));
    }
  }

  lemma SelectFollowsClause(rest: string)
    requires SelectFollows(rest)
    ensures ClauseFollows(rest)
  {
  }

  lemma BlankJoinFollows(s: string)
    requires StartsWith(s, "JOINON:")
    ensures ClauseFollows(" " + s)
  {
    assert (" " + s)[1..] == s;
  }

  lemma JoinsStep(js: seq<JoinClause>, rest: string)
    requires js != [] && forall i :: 0 <= i < |js| ==> PrintableJoin(js[i])
    requires SelectFollows(rest)
    ensures var after := JoinsText(js[1..]) + rest;
      ParseJoin(JoinsText(js) + rest) == Success(js[0], after)
  {
    var after := JoinsText(js[1..]) + rest;
    JoinsTextSplit(js, rest);
    JoinsFollow(js[1..], rest);
    BlankJoin(js[0], after);
  }

  lemma BlankJoin(j: JoinClause, after: string)
    requires PrintableJoin(j) && ClauseFollows(after)
    ensures ParseJoin(" " + (JoinText(j) + after)) == Success(j, after)
  {
    JoinTextStart(j, after);
    SkipWhitespaceAt(JoinText(j) + after);
    JoinRoundTrip(" " + (JoinText(j) + after), j, after);
  }

  lemma JoinsFromParts(t: string, j: JoinClause, after: string, more: seq<JoinClause>, rest: string)
    requires ParseJoin(t) == Success(j, after) && ParseJoins(after) == (more, rest)
    ensures ParseJoins(t) == ([j] + more, rest)
  {
  }

  /** The `JOINON:` clauses read back as themselves, in order, and stop
      at `SELECT:`. */
  lemma {:induction false} JoinsRoundTrip(js: seq<JoinClause>, rest: string)
    requires forall i :: 0 <= i < |js| ==> PrintableJoin(js[i])
    requires SelectFollows(rest)
    ensures ParseJoins(JoinsText(js) + rest) == (js, rest)
    decreases |js|
  {
    if js == [] {
      assert JoinsText(js) + rest == rest;
      assert ClauseFollows(rest);
      ClauseFollowsStops(rest);
    } else {
      var after := JoinsText(js[1..]) + rest;
      JoinsStep(js, rest);
      JoinsRoundTrip(js[1..], rest);
      JoinsFromParts(JoinsText(js) + rest, js[0], after, js[1..], rest);
      assert js == [js[0]] + js[1..];
    }
  }

  // -----------------------------------------------------------------------
  // The optional clauses and the whole query

  lemma FieldListClauseHead(kw: string, o: Option<seq<Path>>, rest: string)
    requires kw != [] && IsLetter(kw[0]) && PrintableFieldList(o)
    ensures var u := SkipWhitespace(FieldListClauseText(kw, o) + rest);
      (o.Some? ==> u == FieldListText(kw, o.value) + rest && u[0] == kw[0])
      && (o.None? ==> u == SkipWhitespace(rest))
  {
    match o
    case None =>
      assert FieldListClauseText(kw, o) + rest == rest;
    case Some(ps) =>
      var f := FieldListText(kw, ps);
      assert FieldListClauseText(kw, o) + rest == [' '] + (f + rest);
      assert (f + rest)[0] == kw[0];
      SkipWhitespaceAt(f + rest);
  }

  /** An optional GROUPBY or ORDERBY reads back as itself, present or
      absent, provided what follows does not start like its keyword. */
  lemma OptionalFieldListRoundTrip(kw: string, o: Option<seq<Path>>, rest: string)
    requires kw != [] && IsLetter(kw[0]) && PrintableFieldList(o)
    requires var u := SkipWhitespace(rest); u == [] || u[0] != kw[0]
    ensures var t := FieldListClauseText(kw, o) + rest;
      Optional(ParseFieldList(t, kw), t) == (o, rest)
  {
    var t := FieldListClauseText(kw, o) + rest;
    FieldListClauseHead(kw, o, rest);
    match o
    case None =>
      assert t == rest;
      TokenSpec(rest, kw);
    case Some(ps) =>
      FieldListRoundTrip(t, kw, ps, rest);
  }

  lemma WhereHead(o: Option<Expression>)
    requires o.Some? ==> PrintableExpression(o.value)
    ensures var u := SkipWhitespace(WhereText(o)); u == [] || u[0] == 'W'
  {
    if o.Some? {
      var s := "WHERE:" + (" " + ExpressionText(o.value));
      assert WhereText(o) == [' '] + s;
      SkipWhitespaceAt(s);
    }
  }

  /** An optional WHERE at the end of the text reads back as itself. */
  lemma OptionalWhereRoundTrip(o: Option<Expression>)
    requires o.Some? ==> PrintableExpression(o.value)
    ensures Optional(ParseWhere(WhereText(o)), WhereText(o)) == (o, [])
  {
    match o
    case None =>
      TokenSpec([], "WHERE:");
    case Some(e) =>
      var x := ExpressionText(e);
      var s := "WHERE:" + (" " + x);
      assert WhereText(o) == [' '] + s;
      SkipWhitespaceAt(s);
      TokenAt(WhereText(o), "WHERE:", " " + x);
      ExpressionStart(e);
      SkipWhitespaceAt(x);
      assert x == x + [];
      ExpressionRoundTrip(" " + x, e, []);
  }

  /** After SELECT: the items, then GROUPBY, ORDERBY and WHERE, each
      present or absent. */
  lemma QueryTailRoundTrip(q: Query)
    requires PrintableQuery(q)
    ensures var w := WhereText(q.where);
      var ow := FieldListClauseText("ORDERBY:", q.orderBy) + w;
      var gow := FieldListClauseText("GROUPBY:", q.groupBy) + ow;
      ParseSelect(" " + (SelectText(q.select) + gow)) == Success(q.select, gow)
      && Optional(ParseFieldList(gow, "GROUPBY:"), gow) == (q.groupBy, ow)
      && Optional(ParseFieldList(ow, "ORDERBY:"), ow) == (q.orderBy, w)
      && Optional(ParseWhere(w), w) == (q.where, [])
  {
    var w := WhereText(q.where);
    var ow := FieldListClauseText("ORDERBY:", q.orderBy) + w;
    var gow := FieldListClauseText("GROUPBY:", q.groupBy) + ow;
    BlankSelect(q.select, gow);
    WhereHead(q.where);
    FieldListClauseHead("ORDERBY:", q.orderBy, w);
    OptionalFieldListRoundTrip("GROUPBY:", q.groupBy, ow);
    OptionalFieldListRoundTrip("ORDERBY:", q.orderBy, w);
    OptionalWhereRoundTrip(q.where);
  }

  lemma SelectTextStart(items: seq<SelectItem>, rest: string)
    requires PrintableSelect(items)
    ensures StartsWith(SelectText(items) + rest, "SELECT:") && (SelectText(items) + rest)[0] == 'S'
  {
    var first, tail := SelectItemText(items[0]), SelectTailText(items[1..]);
    SelectTextSplit(items, first, tail, rest);
    StartsWithConcat("SELECT:", " " + ("(" + (first + (tail + (")" + rest)))));
  }

  lemma BlankSelect(items: seq<SelectItem>, rest: string)
    requires PrintableSelect(items)
    ensures ParseSelect(" " + (SelectText(items) + rest)) == Success(items, rest)
    ensures SelectFollows(" " + (SelectText(items) + rest))
  {
    var s := SelectText(items) + rest;
    SelectTextStart(items, rest);
    SkipWhitespaceAt(s);
    SelectRoundTrip(" " + s, items, rest);
    assert (" " + s)[1..] == s;
  }

  lemma QueryTextSplit(q: Query, s: string)
    requires PrintableQuery(q)
    requires s == " " + (SelectText(q.select) + (FieldListClauseText("GROUPBY:", q.groupBy)
      + (FieldListClauseText("ORDERBY:", q.orderBy) + WhereText(q.where))))
    ensures QueryText(q) == ModelText(q.model) + (JoinsText(q.joins) + s)
  {
    QuerySplit(ModelText(q.model), JoinsText(q.joins), SelectText(q.select),
      FieldListClauseText("GROUPBY:", q.groupBy), FieldListClauseText("ORDERBY:", q.orderBy),
      WhereText(q.where));
  }

  lemma QuerySplit(m: string, j: string, s: string, g: string, o: string, w: string)
    ensures m + j + " " + s + g + o + w == m + (j + (" " + (s + (g + (o + w)))))
  {
  }

  lemma QueryFromParts(t: string, model: ModelClause, r1: string, joins: seq<JoinClause>, r2: string,
                       select: seq<SelectItem>, r3: string, g: Option<seq<Path>>, r4: string,
                       o: Option<seq<Path>>, r5: string, w: Option<Expression>, r6: string)
    requires ParseModel(t) == Success(model, r1) && ParseJoins(r1) == (joins, r2)
    requires ParseSelect(r2) == Success(select, r3)
    requires Optional(ParseFieldList(r3, "GROUPBY:"), r3) == (g, r4)
    requires Optional(ParseFieldList(r4, "ORDERBY:"), r4) == (o, r5)
    requires Optional(ParseWhere(r5), r5) == (w, r6)
    ensures ParseQuery(t) == Success(Query(model, joins, select, g, o, w), r6)
  {
  }

  /** The model and join clauses, up to SELECT. */
  lemma QueryHeadRoundTrip(q: Query, s: string)
    requires PrintableQuery(q) && SelectFollows(s)
    ensures var j := JoinsText(q.joins) + s;
      ParseModel(ModelText(q.model) + j) == Success(q.model, j)
      && ParseJoins(j) == (q.joins, s)
  {
    var j := JoinsText(q.joins) + s;
    var t := ModelText(q.model) + j;
    JoinsFollow(q.joins, s);
    ClauseFollowsStops(j);
    assert t[0] == 'M';
    SkipWhitespaceAt(t);
    ModelRoundTrip(t, q.model, j);
    JoinsRoundTrip(q.joins, s);
  }

  /** The round trip for a whole query: every printable query, printed
      and parsed again, is itself. */
  lemma QueryRoundTrip(q: Query)
    requires PrintableQuery(q)
    ensures ParseQuery(QueryText(q)) == Success(q, [])
    ensures ParseQueryText(QueryText(q)) == Ok(q)
  {
    var w := WhereText(q.where);
    var ow := FieldListClauseText("ORDERBY:", q.orderBy) + w;
    var gow := FieldListClauseText("GROUPBY:", q.groupBy) + ow;
    var s := " " + (SelectText(q.select) + gow);
    var j := JoinsText(q.joins) + s;
    QueryTextSplit(q, s);
    BlankSelect(q.select, gow);
    QueryHeadRoundTrip(q, s);
    QueryTailRoundTrip(q);
    QueryFromParts(QueryText(q), q.model, j, q.joins, s, q.select, gow, q.groupBy, ow,
      q.orderBy, w, q.where, []);
    assert q == Query(q.model, q.joins, q.select, q.groupBy, q.orderBy, q.where);
  }
}
