/** What the token parsers of server/parser.py accept: identifiers,
    integers, strings, the keyword alternatives and dotted field paths.
    Each token gets a characterisation of what it consumes and a round trip
    against a printed form. */
module ParserTokens {
  import opened Wrappers
  import opened Parser

  // -----------------------------------------------------------------------
  // Whitespace and literal tokens

  lemma {:induction false} SkipWhitespaceSpec(t: string)
    ensures var r := SkipWhitespace(t);
      && r == t[|t| - |r|..]
      && (forall i :: 0 <= i < |t| - |r| ==> IsWhitespace(t[i]))
      && (r == [] || !IsWhitespace(r[0]))
    decreases |t|
  {
    if t != [] && IsWhitespace(t[0]) {
      SkipWhitespaceSpec(t[1..]);
      var r := SkipWhitespace(t);
      forall i | 0 <= i < |t| - |r|
        ensures IsWhitespace(t[i])
      {
        if i > 0 {
          assert t[i] == t[1..][i - 1];
        }
      }
    }
  }

  /** Text that starts with a non-blank character is not changed by
      skipping; one leading blank is dropped. */
  lemma SkipWhitespaceAt(u: string)
    requires u != [] && !IsWhitespace(u[0])
    ensures SkipWhitespace(u) == u
    ensures SkipWhitespace([' '] + u) == u
  {
    assert ([' '] + u)[1..] == u;
  }

  /** Nothing is left by skipping only when nothing but whitespace was
      there. */
  lemma {:induction false} SkipWhitespaceEmpty(t: string)
    ensures SkipWhitespace(t) == [] <==> forall i :: 0 <= i < |t| ==> IsWhitespace(t[i])
    decreases |t|
  {
    SkipWhitespaceSpec(t);
    if t != [] && IsWhitespace(t[0]) {
      SkipWhitespaceEmpty(t[1..]);
      if forall i :: 0 <= i < |t[1..]| ==> IsWhitespace(t[1..][i]) {
        assert forall i :: 0 <= i < |t| ==> IsWhitespace(t[i]) by {
          forall i | 0 <= i < |t| ensures IsWhitespace(t[i]) {
            if i > 0 { assert t[i] == t[1..][i - 1]; }
          }
        }
      }
    }
  }

  /** A literal token matches exactly when the text, blanks skipped,
      begins with it, and leaves what follows it. */
  lemma TokenSpec(t: string, lit: string)
    requires lit != []
    ensures Token(t, lit).Some? <==> StartsWith(SkipWhitespace(t), lit)
    ensures Token(t, lit).Some? ==> SkipWhitespace(t) == lit + Token(t, lit).value
  {
    var u := SkipWhitespace(t);
    if StartsWith(u, lit) {
      assert u == u[..|lit|] + u[|lit|..];
    }
  }

  lemma TokenAt(t: string, lit: string, rest: string)
    requires lit != [] && SkipWhitespace(t) == lit + rest
    ensures Token(t, lit) == Some(rest)
  {
    assert (lit + rest)[..|lit|] == lit;
    assert (lit + rest)[|lit|..] == rest;
  }

  /** A text that begins with the token itself. */
  lemma TokenFirst(t: string, lit: string, rest: string)
    requires lit != [] && !IsWhitespace(lit[0]) && t == lit + rest
    ensures Token(t, lit) == Some(rest)
  {
    SkipWhitespaceAt(t);
    TokenAt(t, lit, rest);
  }

  lemma TokenMissing(t: string, lit: string, i: nat)
    requires lit != [] && i < |lit|
    requires i < |SkipWhitespace(t)| && SkipWhitespace(t)[i] != lit[i]
    ensures Token(t, lit) == None
  {
  }

  // -----------------------------------------------------------------------
  // Identifier

  /** `Identifier` takes the longest run matching `[a-zA-Z][a-zA-Z0-9_]*`:
      it succeeds exactly on a letter, and what it leaves does not begin
      with a character an identifier could continue with. */
  lemma IdentifierSpec(t: string)
    ensures var u := SkipWhitespace(t);
      ParseIdentifier(t).Success? <==> u != [] && IsLetter(u[0])
    ensures var r := ParseIdentifier(t);
      r.Success? ==> && IsIdentifier(r.value)
                     && SkipWhitespace(t) == r.value + r.rest
                     && (r.rest == [] || !IsIdentChar(r.rest[0]))
  {
    var u := SkipWhitespace(t);
    if u != [] && IsLetter(u[0]) {
      var n := 1 + IdentCharRun(u[1..]);
      assert u == u[..n] + u[n..];
      forall i | 1 <= i < n
        ensures IsIdentChar(u[..n][i])
      {
        assert u[..n][i] == u[1..][i - 1];
      }
      if n < |u| {
        assert u[n..][0] == u[1..][n - 1];
      }
    }
  }

  lemma {:induction false} IdentCharRunOf(w: string, rest: string)
    requires forall i :: 0 <= i < |w| ==> IsIdentChar(w[i])
    requires rest == [] || !IsIdentChar(rest[0])
    ensures IdentCharRun(w + rest) == |w|
    decreases |w|
  {
    if w != [] {
      assert (w + rest)[1..] == w[1..] + rest;
      IdentCharRunOf(w[1..], rest);
    } else {
      assert w + rest == rest;
    }
  }

  /** An identifier followed by a character that cannot continue it is
      read back whole. */
  lemma IdentifierRoundTrip(t: string, w: string, rest: string)
    requires IsIdentifier(w) && (rest == [] || !IsIdentChar(rest[0]))
    requires SkipWhitespace(t) == w + rest
    ensures ParseIdentifier(t) == Success(w, rest)
  {
    IdentifierSplit(w, rest);
  }

  lemma IdentifierSplit(w: string, rest: string)
    requires IsIdentifier(w) && (rest == [] || !IsIdentChar(rest[0]))
    ensures var u := w + rest;
      && u != [] && IsLetter(u[0]) && 1 + IdentCharRun(u[1..]) == |w|
      && u[..|w|] == w && u[|w|..] == rest
  {
    var u := w + rest;
    assert u[1..] == w[1..] + rest;
    forall i | 0 <= i < |w[1..]|
      ensures IsIdentChar(w[1..][i])
    {
      assert w[1..][i] == w[i + 1];
    }
    IdentCharRunOf(w[1..], rest);
    assert u[..|w|] == w;
    assert u[|w|..] == rest;
  }

  lemma IdentifierFirst(w: string, rest: string)
    requires IsIdentifier(w) && (rest == [] || !IsIdentChar(rest[0]))
    ensures ParseIdentifier(w + rest) == Success(w, rest)
  {
    SkipWhitespaceAt(w + rest);
    IdentifierRoundTrip(w + rest, w, rest);
  }

  /** `parse(s, Identifier)` on a text without blanks succeeds exactly when
      the whole text is an identifier, and then yields it. */
  lemma IdentifierText(s: string)
    requires NoWhitespace(s)
    ensures Complete(ParseIdentifier(s)).Ok? <==> IsIdentifier(s)
    ensures Complete(ParseIdentifier(s)).Ok? ==> Complete(ParseIdentifier(s)).value == s
  {
    if s != [] {
      SkipWhitespaceAt(s);
    }
    IdentifierSpec(s);
    if IsIdentifier(s) {
      IdentifierRoundTrip(s, s, []);
      assert s + [] == s;
    }
    var r := ParseIdentifier(s);
    if r.Success? && SkipWhitespace(r.rest) == [] {
      RestOfBlankFree(s, r.value, r.rest);
    }
  }

  lemma IdentifierAccepted()
    ensures Complete(ParseIdentifier("AbcAbc")) == Ok("AbcAbc")
  {
    var s := "AbcAbc";
    assert NoWhitespace(s);
    assert IsIdentifier(s);
    IdentifierText(s);
  }

  lemma IdentifierRejectsLeadingDigit()
    ensures Complete(ParseIdentifier("1abc")).Err?
  {
    var s := "1abc";
    assert NoWhitespace(s);
    assert !IsLetter(s[0]);
    IdentifierText(s);
  }

  lemma IdentifierRejectsDot()
    ensures Complete(ParseIdentifier("abc.abc")).Err?
  {
    var s := "abc.abc";
    assert NoWhitespace(s);
    assert !IsIdentChar(s[3]);
    assert !IsIdentifier(s);
    IdentifierText(s);
  }

  // -----------------------------------------------------------------------
  // Integer

  function DigitChar(d: nat): (c: char)
    requires d < 10
    ensures IsDigit(c) && DigitValue(c) == d
  {
    ('0' as int + d) as char
  }

  /** The decimal digits of a positive number, without leading zeros. */
  function NatText(n: nat): (s: string)
    requires n > 0
    decreases n
  {
    if n < 10 then [DigitChar(n)] else NatText(n / 10) + [DigitChar(n % 10)]
  }

  /** The text of a non-zero integer, with `-` for a negative one. */
  function IntegerText(v: int): string
    requires v != 0
  {
    if v < 0 then "-" + NatText(-v) else NatText(v)
  }

  lemma {:induction false} NatTextSpec(n: nat)
    requires n > 0
    ensures var s := NatText(n); |s| >= 1 && IsNonZeroDigit(s[0]) && AllDigits(s)
    ensures DecimalValue(NatText(n)) == n
    decreases n
  {
    if n >= 10 {
      NatTextSpec(n / 10);
      var s := NatText(n);
      var init := NatText(n / 10);
      assert s[..|s| - 1] == init;
      assert s[0] == init[0];
    } else {
      assert NatText(n)[..0] == [];
    }
  }

  lemma {:induction false} DigitRunOf(ds: string, rest: string)
    requires AllDigits(ds) && (rest == [] || !IsDigit(rest[0]))
    ensures DigitRun(ds + rest) == |ds|
    decreases |ds|
  {
    if ds != [] {
      assert (ds + rest)[1..] == ds[1..] + rest;
      DigitRunOf(ds[1..], rest);
    } else {
      assert ds + rest == rest;
    }
  }

  /** `Integer` accepts `-?[1-9][0-9]*`, taking all the digits, and yields
      their signed value, which is never 0. */
  lemma IntegerSpec(t: string)
    ensures var u := SkipWhitespace(t);
      ParseInteger(t).Success? <==>
        (|u| >= 1 && IsNonZeroDigit(u[0])) || (|u| >= 2 && u[0] == '-' && IsNonZeroDigit(u[1]))
    ensures var u := SkipWhitespace(t); var r := ParseInteger(t);
      r.Success? ==> |r.rest| < |u| && IntegerMatch(u, |u| - |r.rest|, r) && r.value != 0
  {
    var u := SkipWhitespace(t);
    if |u| >= 2 && u[0] == '-' && IsNonZeroDigit(u[1]) {
      NegativeIntegerMatch(t, u);
    } else if |u| >= 1 && IsNonZeroDigit(u[0]) {
      PositiveIntegerMatch(t, u);
    } else {
      assert ParseInteger(t) == Failure;
    }
  }

  lemma NegativeIntegerMatch(t: string, u: string)
    requires u == SkipWhitespace(t) && |u| >= 2 && u[0] == '-' && IsNonZeroDigit(u[1])
    ensures var r := ParseInteger(t);
      r.Success? && |r.rest| < |u| && IntegerMatch(u, |u| - |r.rest|, r) && r.value != 0
  {
    var n := 2 + DigitRun(u[2..]);
    NegativeDigitsMatch(u, n);
    NegativeIntegerParse(t, u, n);
    MatchOfRest(u, n, ParseInteger(t), Success(0 - DecimalValue(u[1..n]) as int, u[n..]));
  }

  /** A match of the first `n` characters leaves the last `|u| - n`. */
  lemma MatchOfRest(u: string, n: nat, r: ParseResult<int>, r': ParseResult<int>)
    requires n <= |u| && IntegerMatch(u, n, r') && r == r'
    ensures r.Success? && |u| - |r.rest| == n && IntegerMatch(u, |u| - |r.rest|, r) && r.value == r'.value
  {
  }

  lemma NegativeDigitsMatch(u: string, n: nat)
    requires |u| >= 2 && u[0] == '-' && IsNonZeroDigit(u[1]) && n == 2 + DigitRun(u[2..])
    ensures n <= |u| && AllDigits(u[1..n]) && DecimalValue(u[1..n]) > 0
    ensures IntegerMatch(u, n, Success(0 - DecimalValue(u[1..n]) as int, u[n..]))
  {
    DigitsFrom(u, 1);
    if n < |u| {
      assert u[n] == u[2..][n - 2];
    }
    NegativeIntegerText(u, n);
    DecimalValuePositive(u[1..n]);
  }

  lemma NegativeIntegerParse(t: string, u: string, n: nat)
    requires u == SkipWhitespace(t) && |u| >= 2 && u[0] == '-' && IsNonZeroDigit(u[1])
    requires n == 2 + DigitRun(u[2..])
    ensures n <= |u| && AllDigits(u[1..n])
    ensures ParseInteger(t) == Success(0 - DecimalValue(u[1..n]) as int, u[n..])
  {
    DigitsFrom(u, 1);
  }

  /** A digit followed by the digit run after it is all digits. */
  lemma DigitsFrom(u: string, k: nat)
    requires k < |u| && IsDigit(u[k])
    ensures var n := k + 1 + DigitRun(u[k + 1..]); n <= |u| && AllDigits(u[k..n])
  {
    var d := DigitRun(u[k + 1..]);
    var w := u[k..k + 1 + d];
    assert AllDigits(u[k + 1..][..d]);
    forall i | 0 <= i < |w|
      ensures IsDigit(w[i])
    {
      if i > 0 {
        assert w[i] == u[k + 1..][..d][i - 1];
      }
    }
  }

  lemma NegativeIntegerText(u: string, n: nat)
    requires 2 <= n <= |u| && u[0] == '-' && IsNonZeroDigit(u[1]) && AllDigits(u[1..n])
    requires n == |u| || !IsDigit(u[n])
    ensures IntegerMatch(u, n, Success(0 - DecimalValue(u[1..n]) as int, u[n..]))
  {
    assert u[..n][1..] == u[1..n];
  }

  lemma PositiveIntegerMatch(t: string, u: string)
    requires u == SkipWhitespace(t) && |u| >= 1 && IsNonZeroDigit(u[0])
    requires !(|u| >= 2 && u[0] == '-')
    ensures var r := ParseInteger(t);
      r.Success? && |r.rest| < |u| && IntegerMatch(u, |u| - |r.rest|, r) && r.value != 0
  {
    var n := 1 + DigitRun(u[1..]);
    PositiveIntegerParse(t, u);
    var r := ParseInteger(t);
    assert r.rest == u[n..] && |u| - |r.rest| == n;
    DecimalValuePositive(u[..n]);
    if n < |u| {
      assert u[n] == u[1..][n - 1];
    }
  }

  lemma PositiveIntegerParse(t: string, u: string)
    requires u == SkipWhitespace(t) && |u| >= 1 && IsNonZeroDigit(u[0])
    requires !(|u| >= 2 && u[0] == '-')
    ensures var n := 1 + DigitRun(u[1..]);
      AllDigits(u[..n]) && ParseInteger(t) == Success(DecimalValue(u[..n]), u[n..])
  {
    DigitsFrom(u, 0);
    assert u[..1 + DigitRun(u[1..])] == u[0..1 + DigitRun(u[1..])];
  }

  /** A non-zero integer, printed and followed by a non-digit, reads back
      as itself. */
  lemma IntegerRoundTrip(t: string, v: int, rest: string)
    requires v != 0 && (rest == [] || !IsDigit(rest[0]))
    requires SkipWhitespace(t) == IntegerText(v) + rest
    ensures ParseInteger(t) == Success(v, rest)
  {
    if v < 0 {
      NegativeRoundTrip(t, v, rest);
    } else {
      PositiveRoundTrip(t, v, rest);
    }
  }

  lemma NegativeRoundTrip(t: string, v: int, rest: string)
    requires v < 0 && (rest == [] || !IsDigit(rest[0]))
    requires SkipWhitespace(t) == "-" + NatText(-v) + rest
    ensures ParseInteger(t) == Success(v, rest)
  {
    var u := SkipWhitespace(t);
    var ds := NatText(-v);
    NatTextSpec(-v);
    SignSplit(ds, rest);
    DigitRunOf(ds[1..], rest);
    NegativeIntegerParse(t, u, 2 + DigitRun(u[2..]));
  }

  /** The pieces of a minus sign, a digit run and what follows. */
  lemma SignSplit(ds: string, rest: string)
    requires ds != []
    ensures var u := "-" + ds + rest;
      && u[0] == '-' && u[1] == ds[0] && u[2..] == ds[1..] + rest
      && u[1..|ds| + 1] == ds && u[|ds| + 1..] == rest
  {
    var u := "-" + ds + rest;
    assert u[2..] == ds[1..] + rest;
    assert u[1..|ds| + 1] == ds;
  }

  lemma PositiveRoundTrip(t: string, v: int, rest: string)
    requires v > 0 && (rest == [] || !IsDigit(rest[0]))
    requires SkipWhitespace(t) == NatText(v) + rest
    ensures ParseInteger(t) == Success(v, rest)
  {
    var u := SkipWhitespace(t);
    var ds := NatText(v);
    NatTextSpec(v);
    DigitsSplit(ds, rest);
    DigitRunOf(ds[1..], rest);
    PositiveIntegerParse(t, u);
  }

  /** The pieces of a digit run and what follows. */
  lemma DigitsSplit(ds: string, rest: string)
    requires ds != []
    ensures var u := ds + rest;
      && u[0] == ds[0] && u[1..] == ds[1..] + rest && u[..|ds|] == ds && u[|ds|..] == rest
  {
    var u := ds + rest;
    assert u[1..] == ds[1..] + rest;
    assert u[..|ds|] == ds;
  }

  lemma IntegerExamples()
    ensures Complete(ParseInteger("-123")) == Ok(-123)
    ensures Complete(ParseInteger("0")).Err?
  {
    assert IntegerText(-123) == "-123" by {
      assert NatText(123) == NatText(12) + ['3'];
      assert NatText(12) == NatText(1) + ['2'];
    }
    SkipWhitespaceAt("-123");
    IntegerRoundTrip("-123", -123, []);
    assert "-123" + [] == "-123";
    SkipWhitespaceAt("0");
  }

  // -----------------------------------------------------------------------
  // String

  lemma {:induction false} StringBodyLengthSpec(u: string, q: char)
    requires q != '\\'
    ensures var r := StringBodyLength(u, q);
      r.Some? ==> u[r.value] == q && IsStringBody(u[..r.value], q)
    decreases |u|
  {
    if u == [] || u[0] == q {
    } else if u[0] == '\\' {
      if |u| >= 2 && u[1] != '\n' {
        StringBodyLengthSpec(u[2..], q);
        var r := StringBodyLength(u[2..], q);
        if r.Some? {
          var n := r.value;
          assert u[..n + 2][2..] == u[2..][..n];
        }
      }
    } else if u[0] != '\n' {
      StringBodyLengthSpec(u[1..], q);
      var r := StringBodyLength(u[1..], q);
      if r.Some? {
        var n := r.value;
        assert u[..n + 1][1..] == u[1..][..n];
      }
    }
  }

  lemma {:induction false} StringBodyLengthOf(b: string, q: char, rest: string)
    requires q != '\\' && IsStringBody(b, q)
    ensures StringBodyLength(b + [q] + rest, q) == Some(|b|)
    decreases |b|
  {
    var u := b + [q] + rest;
    if b == [] {
      assert u[0] == q;
    } else if b[0] == '\\' {
      assert u[2..] == b[2..] + [q] + rest;
      StringBodyLengthOf(b[2..], q, rest);
    } else {
      assert u[1..] == b[1..] + [q] + rest;
      StringBodyLengthOf(b[1..], q, rest);
    }
  }

  /** `String` reads a delimiter, a body in which that delimiter only
      occurs escaped, and the same delimiter; its value is the body as
      written. */
  lemma StringSpec(t: string)
    ensures var u := SkipWhitespace(t); var r := ParseString(t);
      r.Success? ==> && IsQuote(u[0])
                     && u == [u[0]] + r.value + [u[0]] + r.rest
                     && IsStringBody(r.value, u[0])
    ensures var u := SkipWhitespace(t);
      (u == [] || !IsQuote(u[0])) ==> ParseString(t).Failure?
  {
    var u := SkipWhitespace(t);
    if u != [] && IsQuote(u[0]) {
      StringBodyLengthSpec(u[1..], u[0]);
      var r := StringBodyLength(u[1..], u[0]);
      if r.Some? {
        var n := r.value;
        assert u[1..][..n] == u[1..n + 1];
        assert u == [u[0]] + u[1..n + 1] + [u[0]] + u[n + 2..];
      }
    }
  }

  lemma StringRoundTrip(t: string, q: char, b: string, rest: string)
    requires IsQuote(q) && IsStringBody(b, q)
    requires SkipWhitespace(t) == [q] + b + [q] + rest
    ensures ParseString(t) == Success(b, rest)
  {
    QuoteSplit(q, b, rest);
    StringBodyLengthOf(b, q, rest);
  }

  /** The pieces of a quoted body and what follows it. */
  lemma QuoteSplit(q: char, b: string, rest: string)
    ensures var u := [q] + b + [q] + rest;
      && u != [] && u[0] == q && u[1..] == b + [q] + rest
      && u[1..|b| + 1] == b && u[|b| + 2..] == rest
  {
    var u := [q] + b + [q] + rest;
    assert u[1..] == b + [q] + rest;
    assert u[1..|b| + 1] == b;
    assert u[|b| + 2..] == rest;
  }

  /** A body without backslashes, newlines or the delimiter. */
  lemma {:induction false} PlainStringBody(b: string, q: char)
    requires forall i :: 0 <= i < |b| ==> b[i] != q && b[i] != '\\' && b[i] != '\n'
    ensures IsStringBody(b, q)
    decreases |b|
  {
    if b != [] {
      assert forall i :: 0 <= i < |b[1..]| ==> b[1..][i] == b[i + 1];
      PlainStringBody(b[1..], q);
    }
  }

  /** A quoted text whose body has no backslash, newline or delimiter
      parses to that body. */
  lemma StringPlainText(q: char, b: string)
    requires IsQuote(q) && forall i :: 0 <= i < |b| ==> b[i] != q && b[i] != '\\' && b[i] != '\n'
    ensures Complete(ParseString([q] + b + [q])) == Ok(b)
  {
    PlainStringBody(b, q);
    var s := [q] + b + [q];
    SkipWhitespaceAt(s);
    assert s == [q] + b + [q] + [];
    StringRoundTrip(s, q, b, []);
  }

  /** Inner blanks are kept, with either delimiter. */
  lemma StringDoubleQuoted()
    ensures Complete(ParseString("\"test  string\"")) == Ok("test  string")
  {
    StringPlainText('"', "test  string");
    assert ['"'] + "test  string" + ['"'] == "\"test  string\"";
  }

  lemma StringSingleQuoted()
    ensures Complete(ParseString("'test  string'")) == Ok("test  string")
  {
    StringPlainText('\'', "test  string");
    assert ['\''] + "test  string" + ['\''] == "'test  string'";
  }

  // -----------------------------------------------------------------------
  // Keyword alternatives

  /** `Aggregator` matches when the text begins with one of the five
      keywords, colon included, and takes exactly that keyword. */
  lemma AggregatorSpec(t: string)
    ensures var r := ParseAggregator(t);
      r.Success? ==> SkipWhitespace(t) == AggregatorKeyword(r.value) + r.rest
    ensures ParseAggregator(t).Failure? <==>
      forall a :: !StartsWith(SkipWhitespace(t), AggregatorKeyword(a))
  {
    TokenSpec(t, "SUM:");
    TokenSpec(t, "AVG:");
    TokenSpec(t, "COUNT:");
    TokenSpec(t, "MIN:");
    TokenSpec(t, "MAX:");
  }

  lemma AggregatorRoundTrip(t: string, a: Aggregator, rest: string)
    requires SkipWhitespace(t) == AggregatorKeyword(a) + rest
    ensures ParseAggregator(t) == Success(a, rest)
  {
    var u := SkipWhitespace(t);
    TokenAt(t, AggregatorKeyword(a), rest);
    match a
    case Sum =>
    case Avg => TokenMissing(t, "SUM:", 0);
    case Count => TokenMissing(t, "SUM:", 0); TokenMissing(t, "AVG:", 0);
    case Min => TokenMissing(t, "SUM:", 0); TokenMissing(t, "AVG:", 0); TokenMissing(t, "COUNT:", 0);
    case Max =>
      TokenMissing(t, "SUM:", 0); TokenMissing(t, "AVG:", 0); TokenMissing(t, "COUNT:", 0);
      TokenMissing(t, "MIN:", 1);
  }

  /** A rest that nothing but blanks can follow is empty, if it was taken
      from a text without blanks. */
  lemma RestOfBlankFree(s: string, front: string, rest: string)
    requires NoWhitespace(s) && s == front + rest && SkipWhitespace(rest) == []
    ensures rest == [] && s == front
  {
    SkipWhitespaceEmpty(rest);
    assert forall i :: 0 <= i < |rest| ==> rest[i] == s[|front| + i];
  }

  /** `parse(s, Aggregator)` on a text without blanks succeeds exactly on
      the five keywords. */
  lemma AggregatorText(s: string, a: Aggregator)
    requires NoWhitespace(s)
    ensures Complete(ParseAggregator(s)) == Ok(a) <==> s == AggregatorKeyword(a)
  {
    if s != [] {
      SkipWhitespaceAt(s);
    }
    AggregatorSpec(s);
    var r := ParseAggregator(s);
    if r.Success? && SkipWhitespace(r.rest) == [] {
      RestOfBlankFree(s, AggregatorKeyword(r.value), r.rest);
      assert AggregatorKeyword(r.value) == AggregatorKeyword(a) ==> r.value == a;
    }
    if s == AggregatorKeyword(a) {
      AggregatorRoundTrip(s, a, []);
      assert s + [] == s;
    }
  }

  lemma AggregatorExamples()
    ensures Complete(ParseAggregator("COUNT:")) == Ok(Count)
    ensures Complete(ParseAggregator("SUM")).Err?
    ensures Complete(ParseAggregator("ABC:")).Err?
  {
    AggregatorText("COUNT:", Count);
    NoAggregatorAt("SUM");
    NoAggregatorAt("ABC:");
  }

  /** A blank-free text that begins with no aggregator keyword is
      rejected. */
  lemma NoAggregatorAt(s: string)
    requires s == "SUM" || s == "ABC:"
    ensures Complete(ParseAggregator(s)).Err?
  {
    SkipWhitespaceAt(s);
    AggregatorSpec(s);
    forall a: Aggregator
      ensures !StartsWith(s, AggregatorKeyword(a))
    {
      var k := AggregatorKeyword(a);
      if |k| <= |s| {
        assert s[..|k|][1] == s[1] != k[1];
      }
    }
  }

  /** `Comparator` takes the first of `==`, `>=`, `<=`, `>`, `<`, `!=` that
      the text begins with, and fails only when it begins with none. */
  lemma ComparatorSpec(t: string)
    ensures var r := ParseComparator(t);
      r.Success? ==> SkipWhitespace(t) == ComparatorSymbol(r.value) + r.rest
    ensures var r := ParseComparator(t);
      r.Success? ==> forall c :: ComparatorRank(c) < ComparatorRank(r.value) ==>
                                   !StartsWith(SkipWhitespace(t), ComparatorSymbol(c))
    ensures ParseComparator(t).Failure? <==>
      forall c :: !StartsWith(SkipWhitespace(t), ComparatorSymbol(c))
  {
    ComparatorTokens(t);
    var u := SkipWhitespace(t);
    var r := ParseComparator(t);
    forall c | r.Failure?
      ensures !StartsWith(u, ComparatorSymbol(c))
    {
      match c
      case Eq => case Geq => case Leq => case Greater => case Less => case Neq =>
    }
    forall c | r.Success? && ComparatorRank(c) < ComparatorRank(r.value)
      ensures !StartsWith(u, ComparatorSymbol(c))
    {
      match c
      case Eq => case Geq => case Leq => case Greater => case Less => case Neq =>
    }
  }

  lemma ComparatorTokens(t: string)
    ensures StartsWith(SkipWhitespace(t), "==") <==> Token(t, "==").Some?
    ensures StartsWith(SkipWhitespace(t), ">=") <==> Token(t, ">=").Some?
    ensures StartsWith(SkipWhitespace(t), "<=") <==> Token(t, "<=").Some?
    ensures StartsWith(SkipWhitespace(t), ">") <==> Token(t, ">").Some?
    ensures StartsWith(SkipWhitespace(t), "<") <==> Token(t, "<").Some?
    ensures StartsWith(SkipWhitespace(t), "!=") <==> Token(t, "!=").Some?
    ensures var r := ParseComparator(t);
      r.Success? ==> SkipWhitespace(t) == ComparatorSymbol(r.value) + r.rest
  {
    TokenSpec(t, "==");
    TokenSpec(t, ">=");
    TokenSpec(t, "<=");
    TokenSpec(t, ">");
    TokenSpec(t, "<");
    TokenSpec(t, "!=");
  }

  /** A comparator not followed by `=` is read back as itself: the
      two-character comparators are tried first, so `>=` is never read as
      `>` and `=`. */
  lemma ComparatorRoundTrip(t: string, c: Comparator, rest: string)
    requires rest == [] || rest[0] != '='
    requires SkipWhitespace(t) == ComparatorSymbol(c) + rest
    ensures ParseComparator(t) == Success(c, rest)
  {
    var u := SkipWhitespace(t);
    TokenAt(t, ComparatorSymbol(c), rest);
    match c
    case Eq =>
    case Geq => TokenMissing(t, "==", 0);
    case Leq => TokenMissing(t, "==", 0); TokenMissing(t, ">=", 0);
    case Greater =>
      TokenMissing(t, "==", 0);
      if |u| >= 2 { TokenMissing(t, ">=", 1); }
      TokenMissing(t, "<=", 0);
    case Less =>
      TokenMissing(t, "==", 0); TokenMissing(t, ">=", 0);
      if |u| >= 2 { TokenMissing(t, "<=", 1); }
      TokenMissing(t, ">", 0);
    case Neq =>
      TokenMissing(t, "==", 0); TokenMissing(t, ">=", 0); TokenMissing(t, "<=", 0);
      TokenMissing(t, ">", 0); TokenMissing(t, "<", 0);
  }

  /** `parse(s, Comparator)` on a text without blanks succeeds exactly on
      the six symbols. */
  lemma ComparatorText(s: string, c: Comparator)
    requires NoWhitespace(s)
    ensures Complete(ParseComparator(s)) == Ok(c) <==> s == ComparatorSymbol(c)
  {
    if s != [] {
      SkipWhitespaceAt(s);
    }
    ComparatorSpec(s);
    var r := ParseComparator(s);
    if r.Success? && SkipWhitespace(r.rest) == [] {
      RestOfBlankFree(s, ComparatorSymbol(r.value), r.rest);
      assert ComparatorSymbol(r.value) == ComparatorSymbol(c) ==> r.value == c;
    }
    if s == ComparatorSymbol(c) {
      ComparatorRoundTrip(s, c, []);
      assert s + [] == s;
    }
  }

  lemma LogicalOperatorSpec(t: string)
    ensures var r := ParseLogicalOperator(t);
      r.Success? ==> SkipWhitespace(t) == LogicalOperatorKeyword(r.value) + r.rest
    ensures ParseLogicalOperator(t).Failure? <==>
      forall op :: !StartsWith(SkipWhitespace(t), LogicalOperatorKeyword(op))
  {
    TokenSpec(t, "AND");
    TokenSpec(t, "OR");
    TokenSpec(t, "XOR");
  }

  lemma LogicalOperatorRoundTrip(t: string, op: LogicalOperator, rest: string)
    requires SkipWhitespace(t) == LogicalOperatorKeyword(op) + rest
    ensures ParseLogicalOperator(t) == Success(op, rest)
  {
    TokenAt(t, LogicalOperatorKeyword(op), rest);
    match op
    case And =>
    case Or => TokenMissing(t, "AND", 0);
    case Xor => TokenMissing(t, "AND", 0); TokenMissing(t, "OR", 0);
  }

  /** `parse(s, LogicalOperator)` on a text without blanks succeeds exactly
      on `AND`, `OR` and `XOR`. */
  lemma LogicalOperatorText(s: string, op: LogicalOperator)
    requires NoWhitespace(s)
    ensures Complete(ParseLogicalOperator(s)) == Ok(op) <==> s == LogicalOperatorKeyword(op)
  {
    if s != [] {
      SkipWhitespaceAt(s);
    }
    LogicalOperatorSpec(s);
    var r := ParseLogicalOperator(s);
    if r.Success? && SkipWhitespace(r.rest) == [] {
      RestOfBlankFree(s, LogicalOperatorKeyword(r.value), r.rest);
      assert LogicalOperatorKeyword(r.value) == LogicalOperatorKeyword(op) ==> r.value == op;
    }
    if s == LogicalOperatorKeyword(op) {
      LogicalOperatorRoundTrip(s, op, []);
      assert s + [] == s;
    }
  }
}
