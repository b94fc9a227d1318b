/** What the composite rules of server/parser.py accept. A printer writes
    each syntax value back as CQL text, and each rule reads that text back
    to the same value; for the whole query this is the round trip
    `parse(print(q)) == q`. */
module ParserGrammar {
  import opened Wrappers
  import opened Parser
  import opened ParserTokens

  // -----------------------------------------------------------------------
  // Printing

  function PathTailText(ws: seq<string>): string
  {
    if ws == [] then "" else "." + ws[0] + PathTailText(ws[1..])
  }

  /** A field path written with dots. */
  function PathText(p: Path): string
    requires |p| >= 1
  {
    p[0] + PathTailText(p[1..])
  }

  /** The string delimiter a printed body is given: `"` when the body can
      stand between double quotes, `'` otherwise. */
  function DelimiterFor(b: string): char
  {
    if IsStringBody(b, '"') then '"' else '\''
  }

  /** The literals the printer can write: integers other than 0 (which the
      integer pattern has no text for) and string bodies that fit between
      one of the delimiters. */
  predicate PrintableLiteral(l: Literal)
  {
    match l
    case IntegerLit(v) => v != 0
    case StringLit(b) => IsStringBody(b, '"') || IsStringBody(b, '\'')
  }

  function LiteralText(l: Literal): string
    requires PrintableLiteral(l)
  {
    match l
    case IntegerLit(v) => IntegerText(v)
    case StringLit(b) => [DelimiterFor(b)] + b + [DelimiterFor(b)]
  }

  predicate PrintableOperand(o: Operand)
  {
    match o
    case FieldOperand(p) => IsPath(p)
    case LiteralOperand(l) => PrintableLiteral(l)
  }

  function OperandText(o: Operand): string
    requires PrintableOperand(o)
  {
    match o
    case FieldOperand(p) => PathText(p)
    case LiteralOperand(l) => LiteralText(l)
  }

  predicate PrintableComparison(c: Comparison)
  {
    IsPath(c.first) && PrintableOperand(c.second)
  }

  /** A comparison written with its field first. */
  function ComparisonText(c: Comparison): string
    requires PrintableComparison(c)
  {
    PathText(c.first) + " " + ComparatorSymbol(c.comparator) + " " + OperandText(c.second)
  }

  predicate PrintableExpression(e: Expression)
  {
    match e
    case ComparisonExpr(c) => PrintableComparison(c)
    case LogicalExpr(l, _, r) => PrintableExpression(l) && PrintableExpression(r)
  }

  function ExpressionText(e: Expression): string
    requires PrintableExpression(e)
  {
    match e
    case ComparisonExpr(c) => ComparisonText(c)
    case LogicalExpr(l, op, r) =>
      "(" + ExpressionText(l) + ")" + " " + LogicalOperatorKeyword(op) + " " + "(" + ExpressionText(r) + ")"
  }

  /** The letters of an aggregator keyword, without its colon. */
  function AggregatorName(a: Aggregator): (name: string)
    ensures AggregatorKeyword(a) == name + ":" && IsIdentifier(name)
  {
    match a
    case Sum => "SUM"
    case Avg => "AVG"
    case Count => "COUNT"
    case Min => "MIN"
    case Max => "MAX"
  }

  predicate PrintableSelectItem(it: SelectItem)
  {
    match it
    case FieldItem(p) => IsPath(p)
    case AggregationItem(_, p) => IsPath(p)
  }

  function SelectItemText(it: SelectItem): string
    requires PrintableSelectItem(it)
  {
    match it
    case FieldItem(p) => PathText(p)
    case AggregationItem(a, p) => AggregatorKeyword(a) + " " + PathText(p)
  }

  function SelectTailText(items: seq<SelectItem>): string
    requires forall i :: 0 <= i < |items| ==> PrintableSelectItem(items[i])
  {
    if items == [] then "" else "," + " " + SelectItemText(items[0]) + SelectTailText(items[1..])
  }

  predicate PrintableSelect(items: seq<SelectItem>)
  {
    |items| >= 1 && forall i :: 0 <= i < |items| ==> PrintableSelectItem(items[i])
  }

  function SelectText(items: seq<SelectItem>): string
    requires PrintableSelect(items)
  {
    "SELECT:" + " " + "(" + SelectItemText(items[0]) + SelectTailText(items[1..]) + ")"
  }

  predicate ArePaths(ps: seq<Path>)
  {
    forall i :: 0 <= i < |ps| ==> IsPath(ps[i])
  }

  function FieldListTailText(ps: seq<Path>): string
    requires ArePaths(ps)
  {
    if ps == [] then "" else "," + " " + PathText(ps[0]) + FieldListTailText(ps[1..])
  }

  /** `GROUPBY: (...)` or `ORDERBY: (...)`. */
  function FieldListText(keyword: string, ps: seq<Path>): string
    requires |ps| >= 1 && ArePaths(ps)
  {
    keyword + " " + "(" + PathText(ps[0]) + FieldListTailText(ps[1..]) + ")"
  }

  function AliasText(alias: Option<string>): string
  {
    match alias
    case None => ""
    case Some(a) => " " + "ALIAS:" + " " + a
  }

  predicate PrintableAlias(alias: Option<string>)
  {
    alias.Some? ==> IsIdentifier(alias.value)
  }

  function ModelText(m: ModelClause): string
  {
    "MODEL:" + " " + m.name + AliasText(m.alias)
  }

  predicate PrintableJoin(j: JoinClause)
  {
    IsPath(j.field) && PrintableAlias(j.alias)
  }

  function JoinText(j: JoinClause): string
    requires PrintableJoin(j)
  {
    "JOINON:" + " " + PathText(j.field) + AliasText(j.alias)
  }

  function JoinsText(js: seq<JoinClause>): string
    requires forall i :: 0 <= i < |js| ==> PrintableJoin(js[i])
  {
    if js == [] then "" else " " + JoinText(js[0]) + JoinsText(js[1..])
  }

  predicate PrintableFieldList(o: Option<seq<Path>>)
  {
    o.Some? ==> |o.value| >= 1 && ArePaths(o.value)
  }

  function FieldListClauseText(keyword: string, o: Option<seq<Path>>): string
    requires PrintableFieldList(o)
  {
    match o
    case None => ""
    case Some(ps) => " " + FieldListText(keyword, ps)
  }

  function WhereText(o: Option<Expression>): string
    requires o.Some? ==> PrintableExpression(o.value)
  {
    match o
    case None => ""
    case Some(e) => " " + "WHERE:" + " " + ExpressionText(e)
  }

  /** The queries the printer can write: every name an identifier, every
      path non-empty, SELECT and the present GROUPBY/ORDERBY non-empty, and
      every literal printable. */
  predicate PrintableQuery(q: Query)
  {
    && IsIdentifier(q.model.name) && PrintableAlias(q.model.alias)
    && (forall i :: 0 <= i < |q.joins| ==> PrintableJoin(q.joins[i]))
    && PrintableSelect(q.select)
    && PrintableFieldList(q.groupBy) && PrintableFieldList(q.orderBy)
    && (q.where.Some? ==> PrintableExpression(q.where.value))
  }

  /** A query written on one line, clauses separated by single blanks. */
  function QueryText(q: Query): string
    requires PrintableQuery(q)
  {
    ModelText(q.model) + JoinsText(q.joins) + " " + SelectText(q.select)
      + FieldListClauseText("GROUPBY:", q.groupBy) + FieldListClauseText("ORDERBY:", q.orderBy)
      + WhereText(q.where)
  }

  // -----------------------------------------------------------------------
  // Field paths

  /** After a path: nothing that could continue the last identifier, and
      no further `.` once blanks are skipped. */
  predicate PathStops(rest: string)
  {
    (rest == [] || !IsIdentChar(rest[0])) && !StartsWith(SkipWhitespace(rest), ".")
  }

  /** What follows an identifier inside a printed path cannot continue
      it. */
  lemma {:induction false} TailTextStops(ws: seq<string>, rest: string)
    requires rest == [] || !IsIdentChar(rest[0])
    ensures var after := PathTailText(ws) + rest; after == [] || !IsIdentChar(after[0])
  {
    if ws != [] {
      assert (PathTailText(ws) + rest)[0] == '.';
    } else {
      assert PathTailText(ws) == "";
      EmptyPrefix(rest);
    }
  }

  lemma {:induction false} PathTailRoundTrip(ws: seq<string>, rest: string)
    requires forall i :: 0 <= i < |ws| ==> IsIdentifier(ws[i])
    requires PathStops(rest)
    ensures ParsePathTail(PathTailText(ws) + rest) == (ws, rest)
    decreases |ws|
  {
    var t := PathTailText(ws) + rest;
    if ws == [] {
      assert PathTailText(ws) == "";
      EmptyPrefix(rest);
      TokenSpec(rest, ".");
    } else {
      PathTailStep(ws, rest);
      PathTailRoundTrip(ws[1..], rest);
      SplitFirst(ws);
    }
  }

  lemma {:induction false} PathTailStep(ws: seq<string>, rest: string)
    requires ws != [] && IsIdentifier(ws[0]) && PathStops(rest)
    ensures var t := PathTailText(ws) + rest; var after := PathTailText(ws[1..]) + rest;
      Token(t, ".") == Some(ws[0] + after) && ParseIdentifier(ws[0] + after) == Success(ws[0], after)
  {
    var after := PathTailText(ws[1..]) + rest;
    TailTextSplit(ws, rest);
    TokenFirst(PathTailText(ws) + rest, ".", ws[0] + after);
    TailTextStops(ws[1..], rest);
    IdentifierFirst(ws[0], after);
  }

  lemma {:induction false} TailTextSplit(ws: seq<string>, rest: string)
    requires ws != []
    ensures PathTailText(ws) + rest == "." + (ws[0] + (PathTailText(ws[1..]) + rest))
  {
  }

  /** A path followed by a stop is read back as the same list of
      identifiers. */
  lemma PathRoundTrip(t: string, p: Path, rest: string)
    requires IsPath(p) && PathStops(rest)
    requires SkipWhitespace(t) == PathText(p) + rest
    ensures ParsePath(t) == Success(p, rest)
  {
    var after := PathTailText(p[1..]) + rest;
    PathHead(t, p, rest);
    PathTailOfPath(p, rest);
    PathFromParts(t, p[0], after, p[1..], rest);
    assert p == [p[0]] + p[1..];
  }

  /** A blank, then a path. */
  lemma BlankThenPath(p: Path, rest: string)
    requires IsPath(p) && PathStops(rest)
    ensures ParsePath(" " + PathText(p) + rest) == Success(p, rest)
  {
    var after := " " + PathText(p) + rest;
    assert after == [' '] + (PathText(p) + rest);
    assert PathText(p)[0] == p[0][0];
    SkipWhitespaceAt(PathText(p) + rest);
    PathRoundTrip(after, p, rest);
  }

  lemma PathHead(t: string, p: Path, rest: string)
    requires IsPath(p) && PathStops(rest)
    requires SkipWhitespace(t) == PathText(p) + rest
    ensures ParseIdentifier(t) == Success(p[0], PathTailText(p[1..]) + rest)
  {
    PathTextSplit(p, rest);
    TailTextStops(p[1..], rest);
    IdentifierRoundTrip(t, p[0], PathTailText(p[1..]) + rest);
  }

  lemma PathTextSplit(p: Path, rest: string)
    requires |p| >= 1
    ensures PathText(p) + rest == p[0] + (PathTailText(p[1..]) + rest)
  {
  }

  lemma PathTailOfPath(p: Path, rest: string)
    requires IsPath(p) && PathStops(rest)
    ensures ParsePathTail(PathTailText(p[1..]) + rest) == (p[1..], rest)
  {
    PathTailRoundTrip(p[1..], rest);
  }

  lemma PathFromParts(t: string, head: string, after: string, more: Path, rest: string)
    requires ParseIdentifier(t) == Success(head, after)
    requires ParsePathTail(after) == (more, rest)
    ensures ParsePath(t) == Success([head] + more, rest)
  {
  }

  lemma {:induction false} PathTailAreIdentifiers(t: string)
    ensures forall i :: 0 <= i < |ParsePathTail(t).0| ==> IsIdentifier(ParsePathTail(t).0[i])
    decreases |t|
  {
    match Token(t, ".")
    case None =>
    case Some(afterDot) =>
      IdentifierSpec(afterDot);
      match ParseIdentifier(afterDot)
      case Failure =>
      case Success(name, rest) =>
        PathTailAreIdentifiers(rest);
  }

  /** Every path the parser produces is a non-empty list of identifiers. */
  lemma ParsedPathIsPath(t: string)
    ensures ParsePath(t).Success? ==> IsPath(ParsePath(t).value)
  {
    IdentifierSpec(t);
    match ParseIdentifier(t)
    case Failure =>
    case Success(head, rest) =>
      PathTailAreIdentifiers(rest);
  }

  /** `parse('abc.def.ghi', Field)` yields `['abc', 'def', 'ghi']`. */
  lemma ThreeSegmentPath()
    ensures Complete(ParsePath("abc.def.ghi")) == Ok(["abc", "def", "ghi"])
  {
    var t := "abc.def.ghi";
    assert t == "abc" + ("." + ("def" + ("." + "ghi")));
    ThreeSegmentText("abc", "def", "ghi");
    SkipWhitespaceAt(t);
    PathRoundTrip(t, ["abc", "def", "ghi"], []);
  }

  lemma ThreeSegmentText(x: string, y: string, z: string)
    ensures PathText([x, y, z]) + [] == x + ("." + (y + ("." + z)))
  {
    var p := [x, y, z];
    assert p[1..] == [y, z] && [y, z][1..] == [z] && [z][1..] == [];
    assert PathTailText([z]) == "." + z;
    assert PathTailText([y, z]) == "." + y + ("." + z);
  }

  /** `abc,def` is not a field: the path stops at the comma and the comma
      is left over. */
  lemma CommaIsNotAPath()
    ensures Complete(ParsePath("abc,def")).Err?
  {
    var rest := ",def";
    SkipWhitespaceAt(rest);
    assert PathStops(rest);
    assert "abc,def" == PathText(["abc"]) + rest;
    SkipWhitespaceAt("abc,def");
    PathRoundTrip("abc,def", ["abc"], rest);
  }

  // -----------------------------------------------------------------------
  // The Field rule as server/parser.py writes it

  lemma FieldAsWrittenTwo(t: string, m: string, r1: string, r2: string, name: string, rest: string)
    requires ParseIdentifier(t) == Success(m, r1) && Token(r1, ".") == Some(r2)
    requires ParseIdentifier(r2) == Success(name, rest)
    ensures ParseFieldAsWritten(t) == Success([m, name], rest)
  {
  }

  lemma FieldAsWrittenOne(t: string, m: string, rest: string)
    requires ParseIdentifier(t) == Success(m, rest) && Token(rest, ".") == None
    ensures ParseFieldAsWritten(t) == Success([m], rest)
  {
  }

  /** The literal rule reads `model.name` and `name` like the dotted path
      does. */
  lemma FieldAsWrittenAgrees(t: string, p: Path, rest: string)
    requires IsWrittenFieldShape(p) && PathStops(rest)
    requires SkipWhitespace(t) == PathText(p) + rest
    ensures ParseFieldAsWritten(t) == Success(p, rest) == ParsePath(t)
  {
    PathRoundTrip(t, p, rest);
    PathHead(t, p, rest);
    if |p| == 2 {
      TwoSegmentTail(p, rest);
      FieldAsWrittenTwo(t, p[0], PathTailText(p[1..]) + rest, p[1] + rest, p[1], rest);
      assert p == [p[0], p[1]];
    } else {
      assert p[1..] == [];
      assert PathTailText(p[1..]) + rest == rest;
      TokenSpec(rest, ".");
      FieldAsWrittenOne(t, p[0], rest);
      assert p == [p[0]];
    }
  }

  lemma TwoSegmentTail(p: Path, rest: string)
    requires IsPath(p) && |p| == 2 && PathStops(rest)
    ensures Token(PathTailText(p[1..]) + rest, ".") == Some(p[1] + rest)
    ensures ParseIdentifier(p[1] + rest) == Success(p[1], rest)
  {
    assert p[1..] == [p[1]] && p[1..][1..] == [];
    assert PathTailText(p[1..]) + rest == "." + (p[1] + rest);
    TokenFirst(PathTailText(p[1..]) + rest, ".", p[1] + rest);
    IdentifierFirst(p[1], rest);
  }

  /** The literal rule stops after two segments, so `abc.def.ghi`, which
      tests/test_parser.py:44-45 expects to parse, is rejected. */
  lemma FieldAsWrittenRejectsThreeSegments()
    ensures ParseFieldAsWritten("abc.def.ghi") == Success(["abc", "def"], ".ghi")
    ensures Complete(ParseFieldAsWritten("abc.def.ghi")).Err?
    ensures Complete(ParsePath("abc.def.ghi")).Ok?
  {
    ThreeSegmentsAsWritten();
    SkipWhitespaceAt(".ghi");
    ThreeSegmentPath();
  }

  lemma ThreeSegmentsAsWritten()
    ensures ParseFieldAsWritten("abc.def.ghi") == Success(["abc", "def"], ".ghi")
  {
    assert "abc.def.ghi" == "abc" + ("." + ("def" + ".ghi"));
    WrittenFieldStopsAtTwo("abc", "def", ".ghi");
  }

  /** Two identifiers joined by a dot, and whatever a second dot starts:
      the literal rule stops before that dot. */
  lemma WrittenFieldStopsAtTwo(x: string, y: string, rest: string)
    requires IsIdentifier(x) && IsIdentifier(y) && rest != [] && rest[0] == '.'
    ensures ParseFieldAsWritten(x + ("." + (y + rest))) == Success([x, y], rest)
  {
    var r2 := y + rest;
    var r1 := "." + r2;
    IdentifierFirst(x, r1);
    TokenFirst(r1, ".", r2);
    IdentifierFirst(y, rest);
    FieldAsWrittenTwo(x + r1, x, r1, r2, y, rest);
  }

  // -----------------------------------------------------------------------
  // Comparisons

  /** What may follow a comparison or an expression: the end of the text
      or the `)` that closes it. */
  predicate Closes(rest: string)
  {
    rest == [] || rest[0] == ')'
  }

  lemma ClosesStops(rest: string)
    requires Closes(rest)
    ensures PathStops(rest) && (rest == [] || !IsDigit(rest[0]))
  {
    if rest != [] {
      SkipWhitespaceAt(rest);
    }
  }

  /** How a printed operand begins. */
  lemma OperandStart(o: Operand)
    requires PrintableOperand(o)
    ensures var s := OperandText(o); s != [] && !IsWhitespace(s[0])
    ensures var s := OperandText(o); o.FieldOperand? <==> IsLetter(s[0])
    ensures var s := OperandText(o); o.LiteralOperand? && o.literal.StringLit? <==> IsQuote(s[0])
    ensures var s := OperandText(o);
      o.LiteralOperand? && o.literal.IntegerLit? ==> (s[0] == '-' || IsNonZeroDigit(s[0]))
  {
    match o
    case FieldOperand(p) =>
    case LiteralOperand(l) =>
      match l
      case IntegerLit(v) =>
        if v < 0 {
          assert IntegerText(v)[0] == '-';
        } else {
          NatTextSpec(v);
        }
      case StringLit(b) =>
  }

  /** The blank and comparator between a field and its operand. */
  lemma ComparatorPart(c: Comparator, y: string)
    requires y != [] && y[0] == ' '
    ensures var x := " " + ComparatorSymbol(c) + y;
      PathStops(x) && ParseComparator(x) == Success(c, y)
  {
    var x := " " + ComparatorSymbol(c) + y;
    var sy := ComparatorSymbol(c) + y;
    assert x == [' '] + sy;
    SkipWhitespaceAt(sy);
    assert !StartsWith(sy, ".");
    ComparatorRoundTrip(x, c, y);
  }

  lemma FieldFirstPrefix(t: string, c: Comparison, rest: string)
    requires PrintableComparison(c) && SkipWhitespace(t) == ComparisonText(c) + rest
    ensures var y := " " + OperandText(c.second) + rest;
      var x := " " + ComparatorSymbol(c.comparator) + y;
      ParsePath(t) == Success(c.first, x) && ParseComparator(x) == Success(c.comparator, y)
  {
    var y := " " + OperandText(c.second) + rest;
    var x := " " + ComparatorSymbol(c.comparator) + y;
    ComparisonTextSplit(c, rest);
    ComparatorPart(c.comparator, y);
    PathRoundTrip(t, c.first, x);
  }

  lemma ComparisonTextSplit(c: Comparison, rest: string)
    requires PrintableComparison(c)
    ensures ComparisonText(c) + rest ==
      PathText(c.first) + (" " + ComparatorSymbol(c.comparator) + (" " + OperandText(c.second) + rest))
  {
    Concat5(PathText(c.first), " ", ComparatorSymbol(c.comparator), " ", OperandText(c.second), rest);
  }

  lemma Concat5(a: string, b: string, c: string, d: string, e: string, f: string)
    ensures a + b + c + d + e + f == a + (b + c + (d + e + f))
  {
  }

  lemma FieldFirstFromParts(t: string, which: nat, f: Path, x: string, cmp: Comparator, y: string,
                            o: Operand, rest: string)
    requires which < 3
    requires ParsePath(t) == Success(f, x) && ParseComparator(x) == Success(cmp, y)
    requires ParseSecondOperand(y, which) == Success(o, rest)
    ensures ParseFieldFirst(t, which) == Success(Comparison(f, cmp, o), rest)
  {
  }

  lemma FieldFirstOperandFails(t: string, which: nat, f: Path, x: string, cmp: Comparator, y: string)
    requires which < 3
    requires ParsePath(t) == Success(f, x) && ParseComparator(x) == Success(cmp, y)
    requires ParseSecondOperand(y, which).Failure?
    ensures ParseFieldFirst(t, which).Failure?
  {
  }

  /** Which alternatives of `Comparision` can read the operand text. */
  lemma SecondOperandAlternatives(y: string, o: Operand, rest: string)
    requires PrintableOperand(o) && Closes(rest)
    requires y == " " + OperandText(o) + rest
    ensures o.FieldOperand? ==> ParseSecondOperand(y, 0) == Success(o, rest)
    ensures o.LiteralOperand? ==> ParseSecondOperand(y, 0).Failure?
    ensures o.LiteralOperand? && o.literal.IntegerLit? ==> ParseSecondOperand(y, 1) == Success(o, rest)
    ensures o.LiteralOperand? && o.literal.StringLit? ==> ParseSecondOperand(y, 1).Failure?
    ensures o.LiteralOperand? && o.literal.StringLit? ==> ParseSecondOperand(y, 2) == Success(o, rest)
  {
    var s := OperandText(o);
    OperandStart(o);
    assert y == [' '] + (s + rest);
    SkipWhitespaceAt(s + rest);
    ClosesStops(rest);
    IdentifierSpec(y);
    IntegerSpec(y);
    match o
    case FieldOperand(p) =>
      PathRoundTrip(y, p, rest);
    case LiteralOperand(l) =>
      match l
      case IntegerLit(v) =>
        IntegerRoundTrip(y, v, rest);
      case StringLit(b) =>
        var q := DelimiterFor(b);
        assert s + rest == [q] + b + [q] + rest;
        StringRoundTrip(y, q, b, rest);
  }

  /** A comparison printed field first reads back as itself, whichever
      kind of operand it has. */
  lemma ComparisonRoundTrip(t: string, c: Comparison, rest: string)
    requires PrintableComparison(c) && Closes(rest)
    requires SkipWhitespace(t) == ComparisonText(c) + rest
    ensures ParseComparison(t) == Success(c, rest)
  {
    var y := " " + OperandText(c.second) + rest;
    var x := " " + ComparatorSymbol(c.comparator) + y;
    FieldFirstPrefix(t, c, rest);
    SecondOperandAlternatives(y, c.second, rest);
    var f, cmp, o := c.first, c.comparator, c.second;
    assert c == Comparison(f, cmp, o);
    if o.FieldOperand? {
      FieldFirstFromParts(t, 0, f, x, cmp, y, o, rest);
    } else if o.literal.IntegerLit? {
      FieldFirstOperandFails(t, 0, f, x, cmp, y);
      FieldFirstFromParts(t, 1, f, x, cmp, y, o, rest);
    } else {
      FieldFirstOperandFails(t, 0, f, x, cmp, y);
      FieldFirstOperandFails(t, 1, f, x, cmp, y);
      FieldFirstFromParts(t, 2, f, x, cmp, y, o, rest);
    }
  }

  /** A comparison written literal first, `12 < abc` or `'s' > abc`. */
  function LiteralFirstText(l: Literal, cmp: Comparator, p: Path): string
    requires PrintableLiteral(l) && IsPath(p)
  {
    LiteralText(l) + " " + ComparatorSymbol(cmp) + " " + PathText(p)
  }

  lemma LiteralFirstFromParts(t: string, isString: bool, l: Literal, x: string, cmp: Comparator,
                              y: string, p: Path, rest: string)
    requires isString ==> l.StringLit? && ParseString(t) == Success(l.strValue, x)
    requires !isString ==> l.IntegerLit? && ParseInteger(t) == Success(l.intValue, x)
    requires ParseComparator(x) == Success(cmp, y) && ParsePath(y) == Success(p, rest)
    ensures ParseLiteralFirst(t, isString) == Success(Comparison(p, cmp, LiteralOperand(l)), rest)
  {
  }

  /** The literal-first alternatives put the field in `first`, the literal
      in `second`, and keep the comparator as written. */
  lemma LiteralFirstRoundTrip(t: string, l: Literal, cmp: Comparator, p: Path, rest: string)
    requires PrintableLiteral(l) && IsPath(p) && PathStops(rest)
    requires SkipWhitespace(t) == LiteralFirstText(l, cmp, p) + rest
    ensures ParseComparison(t) == Success(Comparison(p, cmp, LiteralOperand(l)), rest)
  {
    var y := " " + PathText(p) + rest;
    var x := " " + ComparatorSymbol(cmp) + y;
    LiteralFirstSuffix(t, l, cmp, p, rest);
    OperandStart(LiteralOperand(l));
    FieldFirstNeedsLetter(t);
    match l
    case IntegerLit(v) =>
      IntegerRoundTrip(t, v, x);
      LiteralFirstFromParts(t, false, l, x, cmp, y, p, rest);
    case StringLit(b) =>
      IntegerSpec(t);
      var q := DelimiterFor(b);
      assert SkipWhitespace(t) == [q] + b + [q] + x;
      StringRoundTrip(t, q, b, x);
      LiteralFirstFromParts(t, true, l, x, cmp, y, p, rest);
  }

  lemma LiteralFirstTextSplit(l: Literal, cmp: Comparator, p: Path, rest: string)
    requires PrintableLiteral(l) && IsPath(p)
    ensures LiteralFirstText(l, cmp, p) + rest
      == LiteralText(l) + (" " + ComparatorSymbol(cmp) + (" " + PathText(p) + rest))
  {
    Concat5(LiteralText(l), " ", ComparatorSymbol(cmp), " ", PathText(p), rest);
  }

  lemma LiteralFirstSuffix(t: string, l: Literal, cmp: Comparator, p: Path, rest: string)
    requires PrintableLiteral(l) && IsPath(p) && PathStops(rest)
    requires SkipWhitespace(t) == LiteralFirstText(l, cmp, p) + rest
    ensures var y := " " + PathText(p) + rest;
      var x := " " + ComparatorSymbol(cmp) + y;
      SkipWhitespace(t) == LiteralText(l) + x
      && ParseComparator(x) == Success(cmp, y) && ParsePath(y) == Success(p, rest)
  {
    var y := " " + PathText(p) + rest;
    var x := " " + ComparatorSymbol(cmp) + y;
    LiteralFirstTextSplit(l, cmp, p, rest);
    BlankThenPath(p, rest);
    ComparatorPart(cmp, y);
  }

  /** The field-first alternatives need the text to open with a letter. */
  lemma FieldFirstNeedsLetter(t: string)
    requires var u := SkipWhitespace(t); u != [] && !IsLetter(u[0])
    ensures forall which :: 0 <= which < 3 ==> ParseFieldFirst(t, which).Failure?
  {
    IdentifierSpec(t);
  }

  /** `12 < abc` parses to first `abc`, comparator `<`, second 12. */
  lemma LiteralFirstExample()
    ensures Complete(ParseComparison("12 < abc")) ==
      Ok(Comparison(["abc"], Less, LiteralOperand(IntegerLit(12))))
  {
    assert LiteralFirstText(IntegerLit(12), Less, ["abc"]) == "12 < abc" by {
      assert IntegerText(12) == NatText(1) + ['2'];
    }
    SkipWhitespaceAt("12 < abc");
    assert PathStops([]);
    assert "12 < abc" == LiteralFirstText(IntegerLit(12), Less, ["abc"]) + [];
    LiteralFirstRoundTrip("12 < abc", IntegerLit(12), Less, ["abc"], []);
  }

  /** In every comparison the parser produces, `first` is a field path. */
  lemma ComparisonFirstIsPath(t: string)
    ensures ParseComparison(t).Success? ==> IsPath(ParseComparison(t).value.first)
  {
    ParsedPathIsPath(t);
    match ParsePath(t)
    case Failure =>
      LiteralFirstFirstIsPath(t, false);
      LiteralFirstFirstIsPath(t, true);
    case Success(_, _) =>
      LiteralFirstFirstIsPath(t, false);
      LiteralFirstFirstIsPath(t, true);
  }

  lemma LiteralFirstFirstIsPath(t: string, isString: bool)
    ensures ParseLiteralFirst(t, isString).Success? ==> IsPath(ParseLiteralFirst(t, isString).value.first)
  {
    var lit: ParseResult<Literal> :=
      if isString then
        (match ParseString(t) case Failure => Failure case Success(v, rest) => Success(StringLit(v), rest))
      else
        (match ParseInteger(t) case Failure => Failure case Success(v, rest) => Success(IntegerLit(v), rest));
    match lit
    case Failure =>
    case Success(l, rest) =>
      match ParseComparator(rest)
      case Failure =>
      case Success(c, rest') =>
        ParsedPathIsPath(rest');
  }

  /** A text that opens with a literal can only be read by the
      literal-first alternatives, so its literal ends up in `second`. */
  lemma LiteralOpeningGoesSecond(t: string)
    requires var u := SkipWhitespace(t); u != [] && !IsLetter(u[0])
    ensures ParseComparison(t).Success? ==> ParseComparison(t).value.second.LiteralOperand?
  {
    IdentifierSpec(t);
  }

  /** No alternative of `Comparision` starts with `(`. */
  lemma ComparisonRejectsParen(t: string)
    requires var u := SkipWhitespace(t); u != [] && u[0] == '('
    ensures ParseComparison(t).Failure?
  {
    IdentifierSpec(t);
    IntegerSpec(t);
    StringSpec(t);
  }

  // -----------------------------------------------------------------------
  // Expressions

  /** A printed expression opens with `(` exactly when it is a logical
      expression, and never with whitespace. */
  lemma ExpressionStart(e: Expression)
    requires PrintableExpression(e)
    ensures var s := ExpressionText(e); s != [] && !IsWhitespace(s[0])
    ensures var s := ExpressionText(e); e.LogicalExpr? <==> s[0] == '('
  {
    match e
    case ComparisonExpr(c) =>
      assert ExpressionText(e)[0] == c.first[0][0];
    case LogicalExpr(_, _, _) =>
  }

  lemma Concat10(a: string, b: string, c: string, d: string, e: string, f: string,
                 g: string, h: string, i: string, rest: string)
    ensures a + b + c + d + e + f + g + h + i + rest ==
      a + (b + (c + (d + (e + (f + (g + (h + (i + rest))))))))
  {
  }

  lemma LogicalTextSplit(l: Expression, op: LogicalOperator, r: Expression, rest: string)
    requires PrintableExpression(l) && PrintableExpression(r)
    ensures var lt, rt, k := ExpressionText(l), ExpressionText(r), LogicalOperatorKeyword(op);
      ExpressionText(LogicalExpr(l, op, r)) + rest ==
      "(" + (lt + (")" + (" " + (k + (" " + ("(" + (rt + (")" + rest))))))))
  {
    Concat10("(", ExpressionText(l), ")", " ", LogicalOperatorKeyword(op), " ", "(", ExpressionText(r), ")", rest);
  }

  /** Between the two operands: `)`, the operator keyword, `(`. */
  lemma LogicalMiddle(op: LogicalOperator, e: string)
    ensures var d := " " + ("(" + e);
      var c := " " + (LogicalOperatorKeyword(op) + d);
      Token(")" + c, ")") == Some(c) && ParseLogicalOperator(c) == Success(op, d)
      && Token(d, "(") == Some(e)
  {
    var d := " " + ("(" + e);
    var c := " " + (LogicalOperatorKeyword(op) + d);
    TokenFirst(")" + c, ")", c);
    assert c == [' '] + (LogicalOperatorKeyword(op) + d);
    SkipWhitespaceAt(LogicalOperatorKeyword(op) + d);
    LogicalOperatorRoundTrip(c, op, d);
    SkipWhitespaceAt("(" + e);
    TokenAt(d, "(", e);
  }

  /** A text that opens with `(` is no comparison, and the `(` is read. */
  lemma LogicalOpens(t: string, body: string)
    requires SkipWhitespace(t) == "(" + body
    ensures ParseComparison(t).Failure? && Token(t, "(") == Some(body)
  {
    ComparisonRejectsParen(t);
    TokenAt(t, "(", body);
  }

  lemma LogicalFromParts(t: string, r1: string, left: Expression, r2: string, r3: string,
                         op: LogicalOperator, r4: string, r5: string, right: Expression,
                         r6: string, r7: string)
    requires ParseComparison(t).Failure? && Token(t, "(") == Some(r1)
    requires ParseExpression(r1) == Success(left, r2) && Token(r2, ")") == Some(r3)
    requires ParseLogicalOperator(r3) == Success(op, r4) && Token(r4, "(") == Some(r5)
    requires ParseExpression(r5) == Success(right, r6) && Token(r6, ")") == Some(r7)
    ensures ParseExpression(t) == Success(LogicalExpr(left, op, right), r7)
  {
  }

  /** Every printable expression, comparison or nested logical
      expression, reads back as itself. */
  lemma {:induction false} ExpressionRoundTrip(t: string, e: Expression, rest: string)
    requires PrintableExpression(e) && Closes(rest)
    requires SkipWhitespace(t) == ExpressionText(e) + rest
    ensures ParseExpression(t) == Success(e, rest)
    decreases e, 1
  {
    match e
    case ComparisonExpr(c) =>
      ComparisonRoundTrip(t, c, rest);
    case LogicalExpr(_, _, _) =>
      LogicalRoundTrip(t, e, rest);
  }

  lemma {:induction false} LogicalRoundTrip(t: string, e: Expression, rest: string)
    requires e.LogicalExpr? && PrintableExpression(e) && Closes(rest)
    requires SkipWhitespace(t) == ExpressionText(e) + rest
    ensures ParseExpression(t) == Success(e, rest)
    decreases e, 0
  {
    var l, op, r := e.left, e.op, e.right;
    var lt, rt := ExpressionText(l), ExpressionText(r);
    var inner := rt + (")" + rest);
    var d := " " + ("(" + inner);
    var c := " " + (LogicalOperatorKeyword(op) + d);
    LogicalTextSplit(l, op, r, rest);
    LogicalOpens(t, lt + (")" + c));
    ExpressionStart(l);
    SkipWhitespaceAt(lt + (")" + c));
    ExpressionRoundTrip(lt + (")" + c), l, ")" + c);
    LogicalMiddle(op, inner);
    ExpressionStart(r);
    SkipWhitespaceAt(inner);
    ExpressionRoundTrip(inner, r, ")" + rest);
    TokenFirst(")" + rest, ")", rest);
    LogicalFromParts(t, lt + (")" + c), l, ")" + c, c, op, d, inner, r, ")" + rest, rest);
  }
}
