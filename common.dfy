/** Name conversion between the CamelCase class names of the schema and the
    snake_case keys the registry and the query language use
    (server/common.py). Only ASCII letters are case-mapped. */
module Common {

  predicate IsUpper(c: char) { 'A' <= c <= 'Z' }
  predicate IsLower(c: char) { 'a' <= c <= 'z' }
  predicate IsDigit(c: char) { '0' <= c <= '9' }

  function ToLower(c: char): (r: char)
    ensures !IsUpper(r)
    ensures IsUpper(c) ==> IsLower(r)
    ensures !IsUpper(c) ==> r == c
  {
    if IsUpper(c) then (c as int + 32) as char else c
  }

  function ToUpper(c: char): (r: char)
    ensures !IsLower(r)
    ensures IsLower(c) ==> IsUpper(r)
    ensures !IsLower(c) ==> r == c
  {
    if IsLower(c) then (c as int - 32) as char else c
  }

  /** `str.lower()` restricted to ASCII. */
  function Lower(s: string): (r: string)
    ensures |r| == |s|
    ensures forall i :: 0 <= i < |s| ==> r[i] == ToLower(s[i])
  {
    if s == [] then [] else [ToLower(s[0])] + Lower(s[1..])
  }

  predicate NoUpper(s: string) { forall i :: 0 <= i < |s| ==> !IsUpper(s[i]) }

  predicate AllLower(s: string) { forall i :: 0 <= i < |s| ==> IsLower(s[i]) }

  /** Number of leading characters of `s` in `[a-z]`. */
  function LowerRunLength(s: string): (n: nat)
    ensures n <= |s|
    ensures AllLower(s[..n])
    ensures n < |s| ==> !IsLower(s[n])
  {
    if s != [] && IsLower(s[0]) then 1 + LowerRunLength(s[1..]) else 0
  }

  /** `re.sub('(.)([A-Z][a-z]+)', r'\1_\2', s)`: scanning left to right,
      each match is replaced and scanning resumes after it. */
  function SplitBeforeWords(s: string): string
  {
    if |s| >= 3 && s[0] != '\n' && IsUpper(s[1]) && IsLower(s[2]) then
      var n := 1 + LowerRunLength(s[2..]);
      [s[0], '_'] + s[1..n + 1] + SplitBeforeWords(s[n + 1..])
    else if s == [] then []
    else [s[0]] + SplitBeforeWords(s[1..])
  }

  /** `re.sub('([a-z0-9])([A-Z])', r'\1_\2', s)`. */
  function SplitBeforeCapitals(s: string): string
  {
    if |s| >= 2 && (IsLower(s[0]) || IsDigit(s[0])) && IsUpper(s[1]) then
      [s[0], '_', s[1]] + SplitBeforeCapitals(s[2..])
    else if s == [] then []
    else [s[0]] + SplitBeforeCapitals(s[1..])
  }

  /** `camel_to_snake`. */
  function CamelToSnake(text: string): string
  {
    Lower(SplitBeforeCapitals(SplitBeforeWords(text)))
  }

  /** `str.capitalize()` restricted to ASCII. */
  function Capitalize(w: string): (r: string)
    ensures |r| == |w|
    ensures |w| > 0 ==> r[0] == ToUpper(w[0]) && r[1..] == Lower(w[1..])
  {
    if w == [] then [] else [ToUpper(w[0])] + Lower(w[1..])
  }

  /** `str.split('_')`: always at least one word, possibly empty ones. */
  function SplitUnderscore(s: string): (ws: seq<string>)
    ensures |ws| >= 1
  {
    if s == [] then [""]
    else
      var rest := SplitUnderscore(s[1..]);
      if s[0] == '_' then [""] + rest else [[s[0]] + rest[0]] + rest[1..]
  }

  function CapitalizeAll(ws: seq<string>): (r: seq<string>)
    ensures |r| == |ws|
    ensures forall i :: 0 <= i < |ws| ==> r[i] == Capitalize(ws[i])
  {
    if ws == [] then [] else [Capitalize(ws[0])] + CapitalizeAll(ws[1..])
  }

  function Concat(ws: seq<string>): string
  {
    if ws == [] then [] else ws[0] + Concat(ws[1..])
  }

  /** `''.join(...)` over the capitalised words: `snake_to_camel`. */
  function SnakeToCamel(text: string): string
  {
    Concat(CapitalizeAll(SplitUnderscore(text)))
  }

  // ---------------------------------------------------------------------
  // Reference definitions used to state what the conversions do.

  /** `s` with every `_` removed. */
  function StripUnderscores(s: string): (r: string)
    ensures forall i :: 0 <= i < |r| ==> r[i] != '_'
  {
    if s == [] then [] else (if s[0] == '_' then [] else [s[0]]) + StripUnderscores(s[1..])
  }

  predicate NoUnderscore(s: string) { forall i :: 0 <= i < |s| ==> s[i] != '_' }

  /** The words joined by `sep`, as `sep.join(ws)` does. */
  function JoinWith(ws: seq<string>, sep: string): string
  {
    if ws == [] then [] else if |ws| == 1 then ws[0] else ws[0] + sep + JoinWith(ws[1..], sep)
  }

  function LowerAll(ws: seq<string>): (r: seq<string>)
    ensures |r| == |ws|
    ensures forall i :: 0 <= i < |ws| ==> r[i] == Lower(ws[i])
  {
    if ws == [] then [] else [Lower(ws[0])] + LowerAll(ws[1..])
  }

  /** A capitalised word: `[A-Z][a-z]+`, the shape of each part of a class
      name such as `ProjectMembers`. */
  predicate IsCapWord(w: string)
  {
    |w| >= 2 && IsUpper(w[0]) && AllLower(w[1..])
  }

  /** Inserting `_` between a `[a-z0-9]` character and a following capital,
      at every such place: the non-overlapping scan of SplitBeforeCapitals
      described position by position. */
  function UnderscoreAtCapitals(s: string): string
  {
    if |s| < 2 then s
    else [s[0]] + (if (IsLower(s[0]) || IsDigit(s[0])) && IsUpper(s[1]) then "_" else "")
         + UnderscoreAtCapitals(s[1..])
  }

  // ---------------------------------------------------------------------
  // camel_to_snake

  lemma LowerHasNoUpper(s: string)
    ensures NoUpper(Lower(s))
  {
  }

  /** The result never holds an ASCII capital. */
  lemma CamelToSnakeNoUpper(text: string)
    ensures NoUpper(CamelToSnake(text))
  {
    LowerHasNoUpper(SplitBeforeCapitals(SplitBeforeWords(text)));
  }

  lemma {:induction false} StripConcat(a: string, b: string)
    ensures StripUnderscores(a + b) == StripUnderscores(a) + StripUnderscores(b)
  {
    if a != [] {
      assert (a + b)[0] == a[0];
      assert (a + b)[1..] == a[1..] + b;
      StripConcat(a[1..], b);
      var h := if a[0] == '_' then [] else [a[0]];
      calc {
        StripUnderscores(a + b);
        h + StripUnderscores(a[1..] + b);
        h + (StripUnderscores(a[1..]) + StripUnderscores(b));
        (h + StripUnderscores(a[1..])) + StripUnderscores(b);
      }
    } else {
      assert a + b == b;
    }
  }

  lemma {:induction false} SplitBeforeWordsOnlyInserts(s: string)
    ensures StripUnderscores(SplitBeforeWords(s)) == StripUnderscores(s)
    decreases |s|
  {
    if |s| >= 3 && s[0] != '\n' && IsUpper(s[1]) && IsLower(s[2]) {
      var n := 1 + LowerRunLength(s[2..]);
      SplitBeforeWordsOnlyInserts(s[n + 1..]);
      assert s == [s[0]] + s[1..n + 1] + s[n + 1..];
      StripWordStep(s[0], s[1..n + 1], s[n + 1..], SplitBeforeWords(s[n + 1..]));
    } else if s != [] {
      SplitBeforeWordsOnlyInserts(s[1..]);
      assert s == [s[0]] + s[1..];
      StripCharStep(s[0], s[1..], SplitBeforeWords(s[1..]));
    }
  }

  /** An `_` inserted after a character is stripped again. */
  lemma StripWordStep(x: char, w: string, tail: string, tail': string)
    requires StripUnderscores(tail') == StripUnderscores(tail)
    ensures StripUnderscores([x, '_'] + w + tail') == StripUnderscores([x] + w + tail)
  {
    StripConcat([x, '_'] + w, tail');
    StripConcat([x, '_'], w);
    StripConcat([x], ['_']);
    assert [x] + ['_'] == [x, '_'];
    StripConcat([x] + w, tail);
    StripConcat([x], w);
  }

  lemma {:induction false} SplitBeforeCapitalsOnlyInserts(s: string)
    ensures StripUnderscores(SplitBeforeCapitals(s)) == StripUnderscores(s)
    decreases |s|
  {
    if |s| >= 2 && (IsLower(s[0]) || IsDigit(s[0])) && IsUpper(s[1]) {
      SplitBeforeCapitalsOnlyInserts(s[2..]);
      assert s == [s[0], s[1]] + s[2..];
      StripPairStep(s[0], s[1], s[2..], SplitBeforeCapitals(s[2..]));
    } else if s != [] {
      SplitBeforeCapitalsOnlyInserts(s[1..]);
      assert s == [s[0]] + s[1..];
      StripCharStep(s[0], s[1..], SplitBeforeCapitals(s[1..]));
    }
  }

  /** An `_` inserted between two other characters is stripped again. */
  lemma StripPairStep(x: char, y: char, tail: string, tail': string)
    requires x != '_' && y != '_' && StripUnderscores(tail') == StripUnderscores(tail)
    ensures StripUnderscores([x, '_', y] + tail') == StripUnderscores([x, y] + tail)
  {
    StripConcat([x, '_', y], tail');
    StripConcat([x, y], tail);
    assert StripUnderscores([x, '_', y]) == [x, y];
    assert StripUnderscores([x, y]) == [x, y];
  }

  lemma StripCharStep(x: char, tail: string, tail': string)
    requires StripUnderscores(tail') == StripUnderscores(tail)
    ensures StripUnderscores([x] + tail') == StripUnderscores([x] + tail)
  {
    StripConcat([x], tail');
    StripConcat([x], tail);
  }

  lemma {:induction false} StripLowerCommute(s: string)
    ensures StripUnderscores(Lower(s)) == Lower(StripUnderscores(s))
  {
    if s != [] {
      StripLowerCommute(s[1..]);
      assert Lower(s) == [ToLower(s[0])] + Lower(s[1..]);
      StripConcat([ToLower(s[0])], Lower(s[1..]));
      StripConcat([s[0]], s[1..]);
      assert s == [s[0]] + s[1..];
      LowerConcat(if s[0] == '_' then [] else [s[0]], StripUnderscores(s[1..]));
    }
  }

  lemma {:induction false} LowerConcat(a: string, b: string)
    ensures Lower(a + b) == Lower(a) + Lower(b)
  {
  }

  /** camel_to_snake only inserts `_` and lowercases: with underscores taken
      out, its result is the lowercased input with underscores taken out. */
  lemma CamelToSnakeOnlyInsertsUnderscores(text: string)
    ensures StripUnderscores(CamelToSnake(text)) == StripUnderscores(Lower(text))
  {
    var p1 := SplitBeforeWords(text);
    var p2 := SplitBeforeCapitals(p1);
    SplitBeforeWordsOnlyInserts(text);
    SplitBeforeCapitalsOnlyInserts(p1);
    StripLowerCommute(p2);
    StripLowerCommute(text);
  }

  lemma {:induction false} SplitBeforeWordsNoUpper(s: string)
    requires NoUpper(s)
    ensures SplitBeforeWords(s) == s
    decreases |s|
  {
    if s != [] {
      SplitBeforeWordsNoUpper(s[1..]);
    }
  }

  lemma {:induction false} SplitBeforeCapitalsNoUpper(s: string)
    requires NoUpper(s)
    ensures SplitBeforeCapitals(s) == s
    decreases |s|
  {
    if s != [] {
      SplitBeforeCapitalsNoUpper(s[1..]);
    }
  }

  lemma {:induction false} LowerNoUpper(s: string)
    requires NoUpper(s)
    ensures Lower(s) == s
  {
  }

  /** A name without capitals is returned unchanged: neither pattern can
      match and lowering changes nothing. */
  lemma CamelToSnakeFixesLowerCase(text: string)
    requires NoUpper(text)
    ensures CamelToSnake(text) == text
  {
    SplitBeforeWordsNoUpper(text);
    SplitBeforeCapitalsNoUpper(text);
    LowerNoUpper(text);
  }

  /** The registry keys of the schema's single-word and two-word model
      class names. */
  lemma CamelToSnakeProject()
    ensures CamelToSnake("Project") == "project"
  {
    CamelToSnakeFromWords(["Project"], "Project", "project");
  }

  lemma CamelToSnakeProjectMembers()
    ensures CamelToSnake("ProjectMembers") == "project_members"
  {
    ProjectMembersAreWords();
    ProjectMembersJoined();
    CamelToSnakeFromWords(["Project", "Members"], "ProjectMembers", "project_members");
  }

  lemma ProjectMembersAreWords()
    ensures AllCapWords(["Project", "Members"])
    ensures Concat(["Project", "Members"]) == "ProjectMembers"
  {
  }

  lemma ProjectMembersJoined()
    ensures JoinWith(LowerAll(["Project", "Members"]), "_") == "project_members"
  {
    LowerProject();
    LowerMembers();
    LowerJoinPair("Project", "Members", "_");
    ProjectMembersText();
  }

  lemma ProjectMembersText()
    ensures "project" + "_" + "members" == "project_members"
  {
  }

  lemma LowerProject()
    ensures Lower("Project") == "project"
  {
  }

  lemma LowerMembers()
    ensures Lower("Members") == "members"
  {
  }

  /** Two words, lowered and joined. */
  lemma LowerJoinPair(a: string, b: string, sep: string)
    ensures JoinWith(LowerAll([a, b]), sep) == Lower(a) + sep + Lower(b)
  {
    assert LowerAll([a, b]) == [Lower(a), Lower(b)];
  }

  /** Helper for the concrete names: the CamelToSnakeOfWords instance with
      its two sides computed. */
  lemma CamelToSnakeFromWords(ws: seq<string>, camel: string, snake: string)
    requires |ws| >= 1 && AllCapWords(ws)
    requires Concat(ws) == camel && JoinWith(LowerAll(ws), "_") == snake
    ensures CamelToSnake(camel) == snake
  {
    CamelToSnakeOfWords(ws);
  }

  // ---------------------------------------------------------------------
  // A CamelCase name made of capitalised words: both passes together put
  // exactly one `_` between consecutive words.

  lemma {:induction false} AllLowerSplitBeforeWords(s: string)
    requires AllLower(s)
    ensures SplitBeforeWords(s) == s
    decreases |s|
  {
    if s != [] {
      AllLowerSplitBeforeWords(s[1..]);
    }
  }

  lemma {:induction false} AllLowerSplitBeforeCapitals(s: string)
    requires NoUpper(s)
    ensures SplitBeforeCapitals(s) == s
    decreases |s|
  {
    SplitBeforeCapitalsNoUpper(s);
  }

  /** `l + w + rest`, with `l` lowercase and `w` a capitalised word: the
      first pass puts `_` before `w` and consumes all of it. */
  lemma SplitBeforeWordsMatch(s: string)
    requires |s| >= 3 && s[0] != '\n' && IsUpper(s[1]) && IsLower(s[2])
    ensures var n := 1 + LowerRunLength(s[2..]);
      SplitBeforeWords(s) == [s[0], '_'] + s[1..n + 1] + SplitBeforeWords(s[n + 1..])
  {
  }

  lemma SplitBeforeWordsSkip(s: string)
    requires s != [] && !(|s| >= 3 && s[0] != '\n' && IsUpper(s[1]) && IsLower(s[2]))
    ensures SplitBeforeWords(s) == [s[0]] + SplitBeforeWords(s[1..])
  {
  }

  lemma CharThenWord(c: char, w: string, rest: string)
    requires IsLower(c) && IsCapWord(w)
    requires rest == [] || IsUpper(rest[0])
    ensures SplitBeforeWords([c] + w + rest) == [c] + "_" + w + SplitBeforeWords(rest)
  {
    var s := [c] + w + rest;
    CharWordParts(c, w, rest);
    SplitBeforeWordsMatch(s);
    LowerRunOfWord(w, rest);
    CharWordJoin(c, w, SplitBeforeWords(rest));
  }

  lemma CharWordParts(c: char, w: string, rest: string)
    requires |w| >= 2
    ensures var s := [c] + w + rest;
      && s[0] == c && s[1] == w[0] && s[2] == w[1] && s[2..] == (w + rest)[1..]
      && s[1..|w| + 1] == w && s[|w| + 1..] == rest
  {
    var s := [c] + w + rest;
    assert s[2..] == (w + rest)[1..];
    assert s[1..|w| + 1] == w;
    assert s[|w| + 1..] == rest;
  }

  lemma CharWordJoin(c: char, w: string, x: string)
    ensures [c, '_'] + w + x == [c] + "_" + w + x
  {
  }

  lemma {:induction false} LowerThenWord(l: string, w: string, rest: string)
    requires |l| >= 1 && AllLower(l) && IsCapWord(w)
    requires rest == [] || IsUpper(rest[0])
    ensures SplitBeforeWords(l + w + rest) == l + "_" + w + SplitBeforeWords(rest)
    decreases |l|
  {
    LowerWordParts(l, w, rest, SplitBeforeWords(rest));
    if |l| == 1 {
      CharThenWord(l[0], w, rest);
    } else {
      SplitBeforeWordsSkip(l + w + rest);
      LowerThenWord(l[1..], w, rest);
    }
  }

  lemma LowerWordParts(l: string, w: string, rest: string, x: string)
    requires |l| >= 1
    ensures var s := l + w + rest;
      && s[0] == l[0] && s[1..] == l[1..] + w + rest
      && (|l| >= 2 ==> s[1] == l[1])
      && (|l| == 1 ==> s == [l[0]] + w + rest && l + "_" + w + x == [l[0]] + "_" + w + x)
      && l + "_" + w + x == [l[0]] + (l[1..] + "_" + w + x)
  {
    var s := l + w + rest;
    assert s[1..] == l[1..] + w + rest;
    assert l == [l[0]] + l[1..];
  }

  lemma {:induction false} LowerRunOfWord(w: string, rest: string)
    requires IsCapWord(w)
    requires rest == [] || IsUpper(rest[0])
    ensures LowerRunLength((w + rest)[1..]) == |w| - 1
  {
    var t := (w + rest)[1..];
    assert t == w[1..] + rest;
    LowerRunPrefix(w[1..], rest);
  }

  lemma {:induction false} LowerRunPrefix(l: string, rest: string)
    requires AllLower(l)
    requires rest == [] || IsUpper(rest[0])
    ensures LowerRunLength(l + rest) == |l|
    decreases |l|
  {
    if l != [] {
      assert (l + rest)[1..] == l[1..] + rest;
      LowerRunPrefix(l[1..], rest);
    } else {
      assert l + rest == rest;
    }
  }

  /** Two words `w1 w2` followed by the rest: the first pass joins them with
      `_` and continues after `w2`. */
  lemma {:induction false} WordsPairSplit(w1: string, w2: string, rest: string)
    requires IsCapWord(w1) && IsCapWord(w2)
    requires rest == [] || IsUpper(rest[0])
    ensures SplitBeforeWords(w1 + w2 + rest) == w1 + "_" + w2 + SplitBeforeWords(rest)
  {
    var s := w1 + w2 + rest;
    WordsPairParts(w1, w2, rest, SplitBeforeWords(rest));
    SplitBeforeWordsSkip(s);
    LowerThenWord(w1[1..], w2, rest);
  }

  lemma WordsPairParts(w1: string, w2: string, rest: string, x: string)
    requires |w1| >= 2
    ensures var s := w1 + w2 + rest;
      && s[0] == w1[0] && s[1] == w1[1] && s[1..] == w1[1..] + w2 + rest
      && w1 + "_" + w2 + x == [w1[0]] + (w1[1..] + "_" + w2 + x)
  {
    var s := w1 + w2 + rest;
    assert s[1..] == w1[1..] + w2 + rest;
    assert w1 == [w1[0]] + w1[1..];
  }

  predicate AllCapWords(ws: seq<string>)
  {
    forall i :: 0 <= i < |ws| ==> IsCapWord(ws[i])
  }

  /** The first pass on capitalised words: pairs `w1 _ w2`, `w3 _ w4`, ...
      are joined, the boundaries between pairs are left alone. */
  function PairUp(ws: seq<string>): string
  {
    if |ws| == 0 then []
    else if |ws| == 1 then ws[0]
    else ws[0] + "_" + ws[1] + PairUp(ws[2..])
  }

  lemma {:induction false} ConcatStartsUpper(ws: seq<string>)
    requires AllCapWords(ws)
    ensures Concat(ws) == [] || IsUpper(Concat(ws)[0])
  {
    if ws != [] {
      assert Concat(ws) == ws[0] + Concat(ws[1..]);
    }
  }

  lemma {:induction false} SplitBeforeWordsOfWords(ws: seq<string>)
    requires AllCapWords(ws)
    ensures SplitBeforeWords(Concat(ws)) == PairUp(ws)
    decreases |ws|
  {
    if |ws| == 1 {
      assert Concat(ws) == ws[0] + Concat([]);
      assert ws[0] == [ws[0][0]] + ws[0][1..];
      assert Concat(ws) == ws[0];
      SplitBeforeWordsSkip(ws[0]);
      AllLowerSplitBeforeWords(ws[0][1..]);
    } else if |ws| >= 2 {
      var rest := Concat(ws[2..]);
      assert Concat(ws[1..]) == ws[1] + rest;
      assert Concat(ws) == ws[0] + ws[1] + rest;
      ConcatStartsUpper(ws[2..]);
      WordsPairSplit(ws[0], ws[1], rest);
      SplitBeforeWordsOfWords(ws[2..]);
    }
  }

  lemma {:induction false} SplitBeforeCapitalsIsUnderscoreAtCapitals(s: string)
    ensures SplitBeforeCapitals(s) == UnderscoreAtCapitals(s)
    decreases |s|
  {
    if |s| >= 2 && (IsLower(s[0]) || IsDigit(s[0])) && IsUpper(s[1]) {
      SplitBeforeCapitalsIsUnderscoreAtCapitals(s[2..]);
      assert s[1..][1..] == s[2..];
    } else if s != [] {
      SplitBeforeCapitalsIsUnderscoreAtCapitals(s[1..]);
    }
  }

  /** UnderscoreAtCapitals looks at neighbouring characters only, so it
      distributes over a concatenation, seen at the seam. */
  lemma {:induction false} UnderscoreAtCapitalsConcat(a: string, b: string)
    requires a != [] && b != []
    ensures UnderscoreAtCapitals(a + b)
         == UnderscoreAtCapitals(a)
            + (if (IsLower(a[|a| - 1]) || IsDigit(a[|a| - 1])) && IsUpper(b[0]) then "_" else "")
            + UnderscoreAtCapitals(b)
    decreases |a|
  {
    if |a| == 1 {
      assert (a + b)[1..] == b;
    } else {
      assert (a + b)[1..] == a[1..] + b;
      UnderscoreAtCapitalsConcat(a[1..], b);
    }
  }

  lemma {:induction false} UnderscoreAtCapitalsOfWord(w: string)
    requires IsCapWord(w) || (w != [] && AllLower(w))
    ensures UnderscoreAtCapitals(w) == w
    decreases |w|
  {
    if |w| >= 2 {
      UnderscoreAtCapitalsOfWord(w[1..]);
    }
  }

  lemma {:induction false} UnderscoreAtCapitalsOfPairs(ws: seq<string>)
    requires |ws| >= 1 && AllCapWords(ws)
    ensures UnderscoreAtCapitals(PairUp(ws)) == JoinWith(ws, "_")
    decreases |ws|
  {
    if |ws| == 1 {
      UnderscoreAtCapitalsOfWord(ws[0]);
    } else {
      var a := ws[0] + "_" + ws[1];
      UnderscoreAfterCapWord(ws[0], ws[1]);
      assert JoinWith(ws, "_") == ws[0] + "_" + JoinWith(ws[1..], "_");
      if |ws| == 2 {
        assert PairUp(ws) == a + PairUp([]);
        assert PairUp(ws) == a;
        assert JoinWith(ws[1..], "_") == ws[1];
      } else {
        var b := PairUp(ws[2..]);
        assert PairUp(ws) == a + b;
        assert JoinWith(ws[1..], "_") == ws[1] + "_" + JoinWith(ws[2..], "_");
        UnderscoreAtCapitalsOfPairs(ws[2..]);
        PairUpStart(ws[2..]);
        assert a[|a| - 1] == ws[1][|ws[1]| - 1];
        assert IsLower(a[|a| - 1]);
        UnderscoreAtCapitalsConcat(a, b);
      }
    }
  }

  lemma {:induction false} PairUpStart(ws: seq<string>)
    requires |ws| >= 1 && AllCapWords(ws)
    ensures PairUp(ws) != [] && PairUp(ws)[0] == ws[0][0]
  {
  }

  lemma {:induction false} UnderscoreAfterCapWord(w: string, v: string)
    requires IsCapWord(w) && IsCapWord(v)
    ensures UnderscoreAtCapitals(w + "_" + v) == w + "_" + v
  {
    UnderscoreThenWord(v);
    UnderscoreAtCapitalsOfWord(w);
    SeamAtUnderscore(w, "_" + v);
    assert w + "_" + v == w + ("_" + v);
  }

  lemma UnderscoreThenWord(v: string)
    requires IsCapWord(v)
    ensures UnderscoreAtCapitals("_" + v) == "_" + v
  {
    var u := "_" + v;
    UnderscoreAtCapitalsOfWord(v);
    assert u[1..] == v && !IsLower(u[0]) && !IsDigit(u[0]);
    assert [u[0]] + v == u;
  }

  /** No `_` is inserted before a `_`. */
  lemma SeamAtUnderscore(a: string, b: string)
    requires a != [] && b != [] && b[0] == '_'
    requires UnderscoreAtCapitals(a) == a && UnderscoreAtCapitals(b) == b
    ensures UnderscoreAtCapitals(a + b) == a + b
  {
    UnderscoreAtCapitalsConcat(a, b);
    assert !IsUpper(b[0]);
  }

  lemma CapWordThenUnderscore(w: string, v: string)
    requires IsCapWord(w) && IsCapWord(v)
    ensures SplitBeforeCapitals(w + "_" + v) == w + "_" + v
  {
    SplitBeforeCapitalsIsUnderscoreAtCapitals(w + "_" + v);
    UnderscoreAfterCapWord(w, v);
    assert w + "_" + v == w + ("_" + v);
  }

  lemma {:induction false} LowerJoin(ws: seq<string>)
    ensures Lower(JoinWith(ws, "_")) == JoinWith(LowerAll(ws), "_")
  {
    if |ws| >= 2 {
      LowerJoin(ws[1..]);
      LowerConcat(ws[0] + "_", JoinWith(ws[1..], "_"));
      LowerConcat(ws[0], "_");
      assert LowerAll(ws)[1..] == LowerAll(ws[1..]);
    }
  }

  /** A class name made of capitalised words becomes those words lowered
      and joined by `_`. */
  lemma CamelToSnakeOfWords(ws: seq<string>)
    requires |ws| >= 1 && AllCapWords(ws)
    ensures CamelToSnake(Concat(ws)) == JoinWith(LowerAll(ws), "_")
  {
    SplitBeforeWordsOfWords(ws);
    SplitBeforeCapitalsIsUnderscoreAtCapitals(PairUp(ws));
    UnderscoreAtCapitalsOfPairs(ws);
    LowerJoin(ws);
  }

  // ---------------------------------------------------------------------
  // snake_to_camel

  lemma {:induction false} SplitWordsHaveNoUnderscore(s: string)
    ensures forall i :: 0 <= i < |SplitUnderscore(s)| ==> NoUnderscore(SplitUnderscore(s)[i])
  {
    if s != [] {
      SplitWordsHaveNoUnderscore(s[1..]);
    }
  }

  lemma {:induction false} ConcatNoUnderscore(ws: seq<string>)
    requires forall i :: 0 <= i < |ws| ==> NoUnderscore(ws[i])
    ensures NoUnderscore(Concat(ws))
  {
    if ws != [] {
      ConcatNoUnderscore(ws[1..]);
    }
  }

  /** The result of snake_to_camel never holds `_`. */
  lemma SnakeToCamelNoUnderscore(text: string)
    ensures NoUnderscore(SnakeToCamel(text))
  {
    var ws := SplitUnderscore(text);
    SplitWordsHaveNoUnderscore(text);
    ConcatNoUnderscore(CapitalizeAll(ws));
  }

  /** `split('_')` undoes `'_'.join` of words without `_`. */
  lemma {:induction false} SplitJoin(ws: seq<string>)
    requires |ws| >= 1
    requires forall i :: 0 <= i < |ws| ==> NoUnderscore(ws[i])
    ensures SplitUnderscore(JoinWith(ws, "_")) == ws
    decreases |ws|, |ws[0]|
  {
    var w := ws[0];
    if w == [] {
      if |ws| > 1 {
        assert JoinWith(ws, "_") == "_" + JoinWith(ws[1..], "_");
        SplitJoin(ws[1..]);
        assert JoinWith(ws, "_")[1..] == JoinWith(ws[1..], "_");
      }
    } else {
      var ws' := [w[1..]] + ws[1..];
      assert ws'[1..] == ws[1..];
      forall i | 0 <= i < |ws'| ensures NoUnderscore(ws'[i]) {
        if i > 0 { assert ws'[i] == ws[i]; }
      }
      SplitJoin(ws');
      var j := JoinWith(ws, "_");
      if |ws| == 1 {
        assert j == w;
      } else {
        assert j == w + "_" + JoinWith(ws[1..], "_");
        assert JoinWith(ws', "_") == w[1..] + "_" + JoinWith(ws[1..], "_");
      }
      assert j[0] == w[0] && j[1..] == JoinWith(ws', "_");
      assert w[0] != '_';
      assert SplitUnderscore(j) == [[w[0]] + w[1..]] + ws[1..];
      assert [w[0]] + w[1..] == w;
    }
  }

  /** `split('_')` followed by `'_'.join` gives the text back. */
  lemma {:induction false} JoinSplit(text: string)
    ensures JoinWith(SplitUnderscore(text), "_") == text
  {
    if text != [] {
      JoinSplit(text[1..]);
      var rest := SplitUnderscore(text[1..]);
      if text[0] != '_' {
        if |rest| > 1 {
          assert JoinWith(rest, "_") == rest[0] + "_" + JoinWith(rest[1..], "_");
        }
      }
      assert text == [text[0]] + text[1..];
    }
  }

  /** snake_to_camel capitalises each `_`-separated word and concatenates
      them in order. */
  lemma SnakeToCamelOfWords(ws: seq<string>)
    requires |ws| >= 1
    requires forall i :: 0 <= i < |ws| ==> NoUnderscore(ws[i])
    ensures SnakeToCamel(JoinWith(ws, "_")) == Concat(CapitalizeAll(ws))
  {
    SplitJoin(ws);
  }

  lemma {:induction false} CapitalizeLowerOfCapWord(w: string)
    requires IsCapWord(w)
    ensures Capitalize(Lower(w)) == w
  {
    assert Lower(w)[1..] == Lower(w[1..]);
    LowerNoUpper(w[1..]);
    LowerNoUpper(Lower(w)[1..]);
  }

  lemma {:induction false} CapitalizeLowerAll(ws: seq<string>)
    requires AllCapWords(ws)
    ensures CapitalizeAll(LowerAll(ws)) == ws
  {
    if ws != [] {
      CapitalizeLowerOfCapWord(ws[0]);
      CapitalizeLowerAll(ws[1..]);
    }
  }

  /** snake_to_camel undoes camel_to_snake on class names made of
      capitalised words, such as `ProjectMembers`. */
  lemma CamelSnakeRoundTrip(ws: seq<string>)
    requires |ws| >= 1 && AllCapWords(ws)
    ensures SnakeToCamel(CamelToSnake(Concat(ws))) == Concat(ws)
  {
    CamelToSnakeOfWords(ws);
    var ls := LowerAll(ws);
    forall i | 0 <= i < |ls| ensures NoUnderscore(ls[i]) {
      LoweredCapWordNoUnderscore(ws[i]);
    }
    SplitJoin(ls);
    CapitalizeLowerAll(ws);
    calc {
      SnakeToCamel(CamelToSnake(Concat(ws)));
      SnakeToCamel(JoinWith(ls, "_"));
      Concat(CapitalizeAll(ls));
      Concat(ws);
    }
  }

  lemma LoweredCapWordNoUnderscore(w: string)
    requires IsCapWord(w)
    ensures NoUnderscore(Lower(w))
  {
    forall k | 0 <= k < |w| ensures Lower(w)[k] != '_' {
      if k > 0 { assert w[1..][k - 1] == w[k]; }
    }
  }
}
