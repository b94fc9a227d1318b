/** The CQL grammar of server/parser.py as a recursive-descent parser.

    The grammar is a parsing expression grammar: an alternative list tries
    its alternatives in order and keeps the first that succeeds, a sequence
    never goes back into an alternative that already succeeded, and the
    repetitions (`maybe_some`, the tail of `csl`) and `optional` take as much
    as they can and never fail. Whitespace is skipped before every token.
    Each parser takes the remaining text and returns the value it built
    together with the text left after it, as the source's parsing library
    does. */
module Parser {
  import opened Wrappers

  // -----------------------------------------------------------------------
  // Abstract syntax

  /** A dotted field path `a.b.c`: its identifiers in order (`.values`). */
  type Path = seq<string>

  datatype Aggregator = Sum | Avg | Count | Min | Max

  datatype Comparator = Eq | Geq | Leq | Greater | Less | Neq

  datatype LogicalOperator = And | Or | Xor

  /** `Integer` keeps its signed value, `String` the text between its
      delimiters exactly as written (no unescaping). */
  datatype Literal = IntegerLit(intValue: int) | StringLit(strValue: string)

  /** The `second` slot of a comparison: a field or a literal. */
  datatype Operand = FieldOperand(path: Path) | LiteralOperand(literal: Literal)

  /** `first` is always the field, whichever side of the comparator it was
      written on. */
  datatype Comparison = Comparison(first: Path, comparator: Comparator, second: Operand)

  datatype Expression =
    | ComparisonExpr(comparison: Comparison)
    | LogicalExpr(left: Expression, op: LogicalOperator, right: Expression)

  datatype SelectItem = FieldItem(path: Path) | AggregationItem(aggregator: Aggregator, field: Path)

  datatype ModelClause = ModelClause(name: string, alias: Option<string>)

  datatype JoinClause = JoinClause(field: Path, alias: Option<string>)

  datatype Query = Query(
    model: ModelClause,
    joins: seq<JoinClause>,
    select: seq<SelectItem>,
    groupBy: Option<seq<Path>>,
    orderBy: Option<seq<Path>>,
    where: Option<Expression>)

  /** `Expression.comparator`: None for a logical expression. */
  function ComparatorOf(e: Expression): (r: Option<Comparator>)
    ensures r.Some? <==> e.ComparisonExpr?
    ensures e.ComparisonExpr? ==> r == Some(e.comparison.comparator)
  {
    match e
    case ComparisonExpr(c) => Some(c.comparator)
    case LogicalExpr(_, _, _) => None
  }

  /** `Expression.logical_operator`: None for a plain comparison. */
  function LogicalOperatorOf(e: Expression): (r: Option<LogicalOperator>)
    ensures r.Some? <==> e.LogicalExpr?
    ensures e.LogicalExpr? ==> r == Some(e.op)
  {
    match e
    case ComparisonExpr(_) => None
    case LogicalExpr(_, op, _) => Some(op)
  }

  // -----------------------------------------------------------------------
  // Characters and tokens

  /** The characters the whitespace pattern `\s` matches in a Python text
      pattern: those `str.isspace` accepts. */
  predicate IsWhitespace(c: char)
  {
    var n := c as int;
    || 9 <= n <= 13 || 0x1c <= n <= 0x20 || n == 0x85 || n == 0xa0 || n == 0x1680
    || 0x2000 <= n <= 0x200a || n == 0x2028 || n == 0x2029 || n == 0x202f || n == 0x205f || n == 0x3000
  }

  predicate IsLetter(c: char) { 'a' <= c <= 'z' || 'A' <= c <= 'Z' }
  predicate IsDigit(c: char) { '0' <= c <= '9' }
  predicate IsNonZeroDigit(c: char) { '1' <= c <= '9' }
  predicate IsIdentChar(c: char) { IsLetter(c) || IsDigit(c) || c == '_' }

  /** `[a-zA-Z][a-zA-Z0-9_]*`, the whole of `w`. */
  predicate IsIdentifier(w: string)
  {
    |w| >= 1 && IsLetter(w[0]) && forall i :: 1 <= i < |w| ==> IsIdentChar(w[i])
  }

  predicate StartsWith(u: string, lit: string)
  {
    |lit| <= |u| && u[..|lit|] == lit
  }

  predicate NoWhitespace(s: string)
  {
    forall i :: 0 <= i < |s| ==> !IsWhitespace(s[i])
  }

  function SkipWhitespace(t: string): (r: string)
    ensures |r| <= |t|
  {
    if t != [] && IsWhitespace(t[0]) then SkipWhitespace(t[1..]) else t
  }

  /** The outcome of one parser: the value and the text after it. */
  datatype ParseResult<+T> = Success(value: T, rest: string) | Failure

  /** A token written literally in the grammar (`'MODEL:'`, `'('`,
      `'=='`, ...), after optional whitespace. */
  function Token(t: string, lit: string): (r: Option<string>)
    requires lit != []
    ensures r.Some? ==> |r.value| < |t|
  {
    var u := SkipWhitespace(t);
    if StartsWith(u, lit) then Some(u[|lit|..]) else None
  }

  /** Number of leading characters of `u` that may continue an identifier. */
  function IdentCharRun(u: string): (n: nat)
    ensures n <= |u|
    ensures forall i :: 0 <= i < n ==> IsIdentChar(u[i])
    ensures n < |u| ==> !IsIdentChar(u[n])
  {
    if u != [] && IsIdentChar(u[0]) then 1 + IdentCharRun(u[1..]) else 0
  }

  /** `Identifier`: the longest run matching `[a-zA-Z][a-zA-Z0-9_]*`. */
  function ParseIdentifier(t: string): (r: ParseResult<string>)
    ensures r.Success? ==> |r.rest| < |t|
  {
    var u := SkipWhitespace(t);
    if u != [] && IsLetter(u[0]) then
      var n := 1 + IdentCharRun(u[1..]);
      Success(u[..n], u[n..])
    else Failure
  }

  // -----------------------------------------------------------------------
  // Integer: -?[1-9][0-9]*

  function DigitValue(c: char): (d: nat)
    requires IsDigit(c)
    ensures d < 10
  {
    c as int - '0' as int
  }

  predicate AllDigits(u: string) { forall i :: 0 <= i < |u| ==> IsDigit(u[i]) }

  /** The value of a string of decimal digits, as `int()` reads it. */
  function DecimalValue(ds: string): nat
    requires AllDigits(ds)
  {
    if ds == [] then 0 else 10 * DecimalValue(ds[..|ds| - 1]) + DigitValue(ds[|ds| - 1])
  }

  function DigitRun(u: string): (n: nat)
    ensures n <= |u|
    ensures AllDigits(u[..n])
    ensures n < |u| ==> !IsDigit(u[n])
  {
    if u != [] && IsDigit(u[0]) then 1 + DigitRun(u[1..]) else 0
  }

  /** The whole of `w` matches `-?[1-9][0-9]*`. */
  predicate IsIntegerText(w: string)
  {
    if |w| >= 1 && w[0] == '-' then |w| >= 2 && IsNonZeroDigit(w[1]) && AllDigits(w[1..])
    else |w| >= 1 && IsNonZeroDigit(w[0]) && AllDigits(w)
  }

  /** `int(text)` for a text the integer pattern accepted. */
  function IntegerTextValue(w: string): int
    requires IsIntegerText(w)
  {
    if w[0] == '-' then 0 - DecimalValue(w[1..]) as int else DecimalValue(w)
  }

  /** `Integer`: its signed value. */
  function ParseInteger(t: string): (r: ParseResult<int>)
    ensures r.Success? ==> |r.rest| < |t|
  {
    var u := SkipWhitespace(t);
    if |u| >= 2 && u[0] == '-' && IsNonZeroDigit(u[1]) then
      var n := 2 + DigitRun(u[2..]);
      assert AllDigits(u[1..n]) by { assert u[1..n] == [u[1]] + u[2..][..n - 2]; }
      Success(0 - DecimalValue(u[1..n]) as int, u[n..])
    else if |u| >= 1 && IsNonZeroDigit(u[0]) then
      var n := 1 + DigitRun(u[1..]);
      assert AllDigits(u[..n]) by { assert u[..n] == [u[0]] + u[1..][..n - 1]; }
      Success(DecimalValue(u[..n]), u[n..])
    else Failure
  }

  /** The first `n` characters of `u` are the longest integer text there,
      and `r` holds its value and the text after it. */
  predicate IntegerMatch(u: string, n: nat, r: ParseResult<int>)
    requires n <= |u|
  {
    && IsIntegerText(u[..n])
    && (n == |u| || !IsDigit(u[n]))
    && r == Success(IntegerTextValue(u[..n]), u[n..])
  }

  lemma {:induction false} DecimalValuePositive(ds: string)
    requires |ds| >= 1 && IsNonZeroDigit(ds[0]) && AllDigits(ds)
    ensures DecimalValue(ds) > 0
    decreases |ds|
  {
    if |ds| > 1 {
      var init := ds[..|ds| - 1];
      assert init[0] == ds[0];
      DecimalValuePositive(init);
    }
  }

  // -----------------------------------------------------------------------
  // String: (["'])(?:(?=(\\?))\2.)*?\1

  predicate IsQuote(c: char) { c == '"' || c == '\'' }

  /** Where the closing delimiter `q` stands in `u`, the text after the
      opening one. Scanning tries the delimiter first (the lazy repetition),
      a backslash takes the character after it with it, and the pattern's
      `.` takes any character but a newline. */
  function StringBodyLength(u: string, q: char): (r: Option<nat>)
    requires !(q == '\\')
    ensures r.Some? ==> r.value < |u|
    decreases |u|
  {
    if u == [] then None
    else if u[0] == q then Some(0)
    else if u[0] == '\\' then
      if |u| >= 2 && u[1] != '\n' then
        match StringBodyLength(u[2..], q)
        case None => None
        case Some(n) => Some(n + 2)
      else None
    else if u[0] == '\n' then None
    else
      match StringBodyLength(u[1..], q)
      case None => None
      case Some(n) => Some(n + 1)
  }

  /** A text the repetition of the string pattern can take without
      reaching the delimiter `q`: characters other than `q`, backslash and
      newline, and two-character escapes of a backslash and a non-newline
      character. */
  predicate IsStringBody(b: string, q: char)
    decreases |b|
  {
    if b == [] then true
    else if b[0] == '\\' then |b| >= 2 && b[1] != '\n' && IsStringBody(b[2..], q)
    else b[0] != q && b[0] != '\n' && IsStringBody(b[1..], q)
  }

  /** `String`: the text between the delimiters. */
  function ParseString(t: string): (r: ParseResult<string>)
    ensures r.Success? ==> |r.rest| < |t|
  {
    var u := SkipWhitespace(t);
    if u != [] && IsQuote(u[0]) then
      match StringBodyLength(u[1..], u[0])
      case None => Failure
      case Some(n) => Success(u[1..n + 1], u[n + 2..])
    else Failure
  }

  // -----------------------------------------------------------------------
  // Keyword alternatives

  function AggregatorKeyword(a: Aggregator): string
  {
    match a
    case Sum => "SUM:"
    case Avg => "AVG:"
    case Count => "COUNT:"
    case Min => "MIN:"
    case Max => "MAX:"
  }

  /** `Aggregator`: `SUM:`, `AVG:`, `COUNT:`, `MIN:`, `MAX:` in this order. */
  function ParseAggregator(t: string): (r: ParseResult<Aggregator>)
    ensures r.Success? ==> |r.rest| < |t|
  {
    match Token(t, "SUM:")
    case Some(rest) => Success(Sum, rest)
    case None =>
      match Token(t, "AVG:")
      case Some(rest) => Success(Avg, rest)
      case None =>
        match Token(t, "COUNT:")
        case Some(rest) => Success(Count, rest)
        case None =>
          match Token(t, "MIN:")
          case Some(rest) => Success(Min, rest)
          case None =>
            match Token(t, "MAX:")
            case Some(rest) => Success(Max, rest)
            case None => Failure
  }

  function ComparatorSymbol(c: Comparator): string
  {
    match c
    case Eq => "=="
    case Geq => ">="
    case Leq => "<="
    case Greater => ">"
    case Less => "<"
    case Neq => "!="
  }

  /** The position of a comparator in the alternative list. */
  function ComparatorRank(c: Comparator): nat
  {
    match c
    case Eq => 0
    case Geq => 1
    case Leq => 2
    case Greater => 3
    case Less => 4
    case Neq => 5
  }

  /** `Comparator`: `==`, `>=`, `<=`, `>`, `<`, `!=` tried in this order;
      the result is the first alternative that the text starts with. */
  function ParseComparator(t: string): (r: ParseResult<Comparator>)
    ensures r.Success? ==> |r.rest| < |t|
  {
    match Token(t, "==")
    case Some(rest) => Success(Eq, rest)
    case None =>
      match Token(t, ">=")
      case Some(rest) => Success(Geq, rest)
      case None =>
        match Token(t, "<=")
        case Some(rest) => Success(Leq, rest)
        case None =>
          match Token(t, ">")
          case Some(rest) => Success(Greater, rest)
          case None =>
            match Token(t, "<")
            case Some(rest) => Success(Less, rest)
            case None =>
              match Token(t, "!=")
              case Some(rest) => Success(Neq, rest)
              case None => Failure
  }

  function LogicalOperatorKeyword(op: LogicalOperator): string
  {
    match op
    case And => "AND"
    case Or => "OR"
    case Xor => "XOR"
  }

  /** `LogicalOperator`: `AND`, `OR`, `XOR` in this order. */
  function ParseLogicalOperator(t: string): (r: ParseResult<LogicalOperator>)
    ensures r.Success? ==> |r.rest| < |t|
  {
    match Token(t, "AND")
    case Some(rest) => Success(And, rest)
    case None =>
      match Token(t, "OR")
      case Some(rest) => Success(Or, rest)
      case None =>
        match Token(t, "XOR")
        case Some(rest) => Success(Xor, rest)
        case None => Failure
  }

  // -----------------------------------------------------------------------
  // Fields

  predicate IsPath(p: Path)
  {
    |p| >= 1 && forall i :: 0 <= i < |p| ==> IsIdentifier(p[i])
  }

  /** `Field`: an identifier followed by any number of `. identifier`. */
  function ParsePath(t: string): (r: ParseResult<Path>)
    ensures r.Success? ==> |r.rest| < |t|
  {
    match ParseIdentifier(t)
    case Failure => Failure
    case Success(head, rest) =>
      var (more, rest') := ParsePathTail(rest);
      Success([head] + more, rest')
  }

  /** The repetition `(. identifier)*`; a `.` that is not followed by an
      identifier is left in the text. */
  function ParsePathTail(t: string): (r: (Path, string))
    ensures |r.1| <= |t|
    decreases |t|
  {
    match Token(t, ".")
    case None => ([], t)
    case Some(afterDot) =>
      match ParseIdentifier(afterDot)
      case Failure => ([], t)
      case Success(name, rest) =>
        var (more, rest') := ParsePathTail(rest);
        ([name] + more, rest')
  }

  /** The two shapes `Field` admits as server/parser.py writes it:
      `name` and `model.name`. */
  predicate IsWrittenFieldShape(p: Path)
  {
    IsPath(p) && |p| <= 2
  }

  /** `Field.model`: the first segment of a two-segment field. */
  function FieldModel(p: Path): (r: Option<string>)
    requires IsWrittenFieldShape(p)
    ensures r.Some? <==> |p| == 2
    ensures r.Some? ==> r.value == p[0]
  {
    if |p| == 2 then Some(p[0]) else None
  }

  /** `Field.name`: the last segment. */
  function FieldName(p: Path): (r: string)
    requires IsWrittenFieldShape(p)
    ensures r == p[|p| - 1] && IsIdentifier(r)
  {
    p[|p| - 1]
  }

  /** The `Field` rule exactly as server/parser.py writes it:
      `[(ModelName, '.', FieldName), FieldName]`. */
  function ParseFieldAsWritten(t: string): (r: ParseResult<Path>)
    ensures r.Success? ==> |r.rest| < |t|
  {
    match ParseIdentifier(t)
    case Failure => Failure
    case Success(model, rest) =>
      var withModel :=
        match Token(rest, ".")
        case None => Failure
        case Some(afterDot) =>
          match ParseIdentifier(afterDot)
          case Failure => Failure
          case Success(name, rest') => Success([model, name], rest');
      if withModel.Success? then withModel else Success([model], rest)
  }

  // -----------------------------------------------------------------------
  // Comparisons and expressions

  /** The operand after the comparator in the first three alternatives. */
  function ParseSecondOperand(t: string, which: nat): (r: ParseResult<Operand>)
    requires which < 3
    ensures r.Success? ==> |r.rest| < |t|
  {
    if which == 0 then
      match ParsePath(t)
      case Failure => Failure
      case Success(p, rest) => Success(FieldOperand(p), rest)
    else if which == 1 then
      match ParseInteger(t)
      case Failure => Failure
      case Success(v, rest) => Success(LiteralOperand(IntegerLit(v)), rest)
    else
      match ParseString(t)
      case Failure => Failure
      case Success(v, rest) => Success(LiteralOperand(StringLit(v)), rest)
  }

  /** Alternatives 1-3: `Field Comparator (Field | Integer | String)`. */
  function ParseFieldFirst(t: string, which: nat): (r: ParseResult<Comparison>)
    requires which < 3
    ensures r.Success? ==> |r.rest| < |t|
  {
    match ParsePath(t)
    case Failure => Failure
    case Success(f, rest) =>
      match ParseComparator(rest)
      case Failure => Failure
      case Success(c, rest') =>
        match ParseSecondOperand(rest', which)
        case Failure => Failure
        case Success(o, rest'') => Success(Comparison(f, c, o), rest'')
  }

  /** Alternatives 4-5: `(Integer | String) Comparator Field`; the literal
      goes to `second`, the field to `first`, the comparator as written. */
  function ParseLiteralFirst(t: string, isString: bool): (r: ParseResult<Comparison>)
    ensures r.Success? ==> |r.rest| < |t|
  {
    var lit: ParseResult<Literal> :=
      if isString then
        (match ParseString(t) case Failure => Failure case Success(v, rest) => Success(StringLit(v), rest))
      else
        (match ParseInteger(t) case Failure => Failure case Success(v, rest) => Success(IntegerLit(v), rest));
    match lit
    case Failure => Failure
    case Success(l, rest) =>
      match ParseComparator(rest)
      case Failure => Failure
      case Success(c, rest') =>
        match ParsePath(rest')
        case Failure => Failure
        case Success(f, rest'') => Success(Comparison(f, c, LiteralOperand(l)), rest'')
  }

  /** `Comparision`: the five alternatives in order. */
  function ParseComparison(t: string): (r: ParseResult<Comparison>)
    ensures r.Success? ==> |r.rest| < |t|
  {
    var a1 := ParseFieldFirst(t, 0);
    if a1.Success? then a1 else
    var a2 := ParseFieldFirst(t, 1);
    if a2.Success? then a2 else
    var a3 := ParseFieldFirst(t, 2);
    if a3.Success? then a3 else
    var a4 := ParseLiteralFirst(t, false);
    if a4.Success? then a4 else
    ParseLiteralFirst(t, true)
  }

  /** `Expression`: a comparison, or else
      `( Expression ) LogicalOperator ( Expression )`. */
  function ParseExpression(t: string): (r: ParseResult<Expression>)
    ensures r.Success? ==> |r.rest| < |t|
    decreases |t|
  {
    match ParseComparison(t)
    case Success(c, rest) => Success(ComparisonExpr(c), rest)
    case Failure =>
      match Token(t, "(")
      case None => Failure
      case Some(r1) =>
        match ParseExpression(r1)
        case Failure => Failure
        case Success(left, r2) =>
          match Token(r2, ")")
          case None => Failure
          case Some(r3) =>
            match ParseLogicalOperator(r3)
            case Failure => Failure
            case Success(op, r4) =>
              match Token(r4, "(")
              case None => Failure
              case Some(r5) =>
                match ParseExpression(r5)
                case Failure => Failure
                case Success(right, r6) =>
                  match Token(r6, ")")
                  case None => Failure
                  case Some(r7) => Success(LogicalExpr(left, op, right), r7)
  }

  // -----------------------------------------------------------------------
  // Clauses

  /** `Aggregation`: an aggregator and the field it applies to. */
  function ParseAggregation(t: string): (r: ParseResult<SelectItem>)
    ensures r.Success? ==> |r.rest| < |t|
  {
    match ParseAggregator(t)
    case Failure => Failure
    case Success(a, rest) =>
      match ParsePath(rest)
      case Failure => Failure
      case Success(f, rest') => Success(AggregationItem(a, f), rest')
  }

  /** One element of `SELECT`: an aggregation is tried before a field. */
  function ParseSelectItem(t: string): (r: ParseResult<SelectItem>)
    ensures r.Success? ==> |r.rest| < |t|
  {
    var agg := ParseAggregation(t);
    if agg.Success? then agg
    else
      match ParsePath(t)
      case Failure => Failure
      case Success(p, rest) => Success(FieldItem(p), rest)
  }

  /** The tail `(, item)*` of a comma-separated list of select items. */
  function ParseSelectTail(t: string): (r: (seq<SelectItem>, string))
    ensures |r.1| <= |t|
    decreases |t|
  {
    match Token(t, ",")
    case None => ([], t)
    case Some(afterComma) =>
      match ParseSelectItem(afterComma)
      case Failure => ([], t)
      case Success(item, rest) =>
        var (more, rest') := ParseSelectTail(rest);
        ([item] + more, rest')
  }

  /** The tail `(, Field)*` of a comma-separated list of fields. */
  function ParsePathListTail(t: string): (r: (seq<Path>, string))
    ensures |r.1| <= |t|
    decreases |t|
  {
    match Token(t, ",")
    case None => ([], t)
    case Some(afterComma) =>
      match ParsePath(afterComma)
      case Failure => ([], t)
      case Success(p, rest) =>
        var (more, rest') := ParsePathListTail(rest);
        ([p] + more, rest')
  }

  /** `SELECT: ( item, ... )`: at least one item. */
  function ParseSelect(t: string): (r: ParseResult<seq<SelectItem>>)
    ensures r.Success? ==> |r.value| >= 1 && |r.rest| < |t|
  {
    match Token(t, "SELECT:")
    case None => Failure
    case Some(r1) =>
      match Token(r1, "(")
      case None => Failure
      case Some(r2) =>
        match ParseSelectItem(r2)
        case Failure => Failure
        case Success(first, r3) =>
          var (more, r4) := ParseSelectTail(r3);
          match Token(r4, ")")
          case None => Failure
          case Some(r5) => Success([first] + more, r5)
  }

  /** `keyword ( Field, ... )`: the shape of GROUPBY and ORDERBY. */
  function ParseFieldList(t: string, keyword: string): (r: ParseResult<seq<Path>>)
    requires keyword != []
    ensures r.Success? ==> |r.value| >= 1 && |r.rest| < |t|
  {
    match Token(t, keyword)
    case None => Failure
    case Some(r1) =>
      match Token(r1, "(")
      case None => Failure
      case Some(r2) =>
        match ParsePath(r2)
        case Failure => Failure
        case Success(first, r3) =>
          var (more, r4) := ParsePathListTail(r3);
          match Token(r4, ")")
          case None => Failure
          case Some(r5) => Success([first] + more, r5)
  }

  /** An optional clause: absent unless it parses. */
  function Optional<T>(r: ParseResult<T>, t: string): (o: (Option<T>, string))
    requires r.Success? ==> |r.rest| < |t|
    ensures |o.1| <= |t|
    ensures o.0.Some? <==> r.Success?
  {
    match r
    case Success(v, rest) => (Some(v), rest)
    case Failure => (None, t)
  }

  /** `ALIAS: name`. */
  function ParseAlias(t: string): (r: ParseResult<string>)
    ensures r.Success? ==> |r.rest| < |t|
  {
    match Token(t, "ALIAS:")
    case None => Failure
    case Some(r1) => ParseIdentifier(r1)
  }

  /** `MODEL: name [ALIAS: name]`. */
  function ParseModel(t: string): (r: ParseResult<ModelClause>)
    ensures r.Success? ==> |r.rest| < |t|
  {
    match Token(t, "MODEL:")
    case None => Failure
    case Some(r1) =>
      match ParseIdentifier(r1)
      case Failure => Failure
      case Success(name, r2) =>
        var (alias, r3) := Optional(ParseAlias(r2), r2);
        Success(ModelClause(name, alias), r3)
  }

  /** `JOINON: Field [ALIAS: name]`. */
  function ParseJoin(t: string): (r: ParseResult<JoinClause>)
    ensures r.Success? ==> |r.rest| < |t|
  {
    match Token(t, "JOINON:")
    case None => Failure
    case Some(r1) =>
      match ParsePath(r1)
      case Failure => Failure
      case Success(field, r2) =>
        var (alias, r3) := Optional(ParseAlias(r2), r2);
        Success(JoinClause(field, alias), r3)
  }

  /** `Join*`. */
  function ParseJoins(t: string): (r: (seq<JoinClause>, string))
    ensures |r.1| <= |t|
    decreases |t|
  {
    match ParseJoin(t)
    case Failure => ([], t)
    case Success(j, rest) =>
      var (more, rest') := ParseJoins(rest);
      ([j] + more, rest')
  }

  /** `WHERE: Expression`. */
  function ParseWhere(t: string): (r: ParseResult<Expression>)
    ensures r.Success? ==> |r.rest| < |t|
  {
    match Token(t, "WHERE:")
    case None => Failure
    case Some(r1) => ParseExpression(r1)
  }

  /** `Query`: Model, Join*, Select, GroupBy?, OrderBy?, Where?, in this
      order. */
  function ParseQuery(t: string): (r: ParseResult<Query>)
    ensures r.Success? ==> |r.value.select| >= 1 && |r.rest| < |t|
  {
    match ParseModel(t)
    case Failure => Failure
    case Success(model, r1) =>
      var (joins, r2) := ParseJoins(r1);
      match ParseSelect(r2)
      case Failure => Failure
      case Success(select, r3) =>
        var (groupBy, r4) := Optional(ParseFieldList(r3, "GROUPBY:"), r3);
        var (orderBy, r5) := Optional(ParseFieldList(r4, "ORDERBY:"), r4);
        var (where, r6) := Optional(ParseWhere(r5), r5);
        Success(Query(model, joins, select, groupBy, orderBy, where), r6)
  }

  // -----------------------------------------------------------------------
  // Parsing a whole text

  /** A malformed text raises a syntax error; its position is not modelled. */
  datatype SyntaxError = SyntaxError

  /** `parse(text, thing)`: the value, provided nothing but whitespace is
      left after it. */
  function Complete<T>(r: ParseResult<T>): (o: Result<T, SyntaxError>)
    ensures o.Ok? <==> r.Success? && SkipWhitespace(r.rest) == []
    ensures o.Ok? ==> o.value == r.value
  {
    if r.Success? && SkipWhitespace(r.rest) == [] then Ok(r.value) else Err(SyntaxError)
  }

  /** `parse(text, Query)`. */
  function ParseQueryText(text: string): (r: Result<Query, SyntaxError>)
    ensures r.Ok? ==> |r.value.select| >= 1
  {
    Complete(ParseQuery(text))
  }
}
