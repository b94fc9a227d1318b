# CQL query compiler of lively4-github-explorer, modelled in Dafny

The GitHub explorer server accepts queries in a small language, CQL:

```
MODEL: project
SELECT: (name, owner.login, COUNT: forks.name)
GROUPBY: (owner.login)
ORDERBY: (name)
```

The server handles such a query in four steps.

1. It parses the text with a PEG grammar (`server/parser.py`).
2. It walks every field path of the query against the peewee models and builds a query tree (`server/query/tree.py`). Along the way it builds a peewee select query with one join per relation on the path (`server/query/builder.py`; the earlier `server/query_builder.py` does the same with its own tree).
3. It turns each result row back into a nested object by walking the tree (`server/query/result.py`).
4. The model registry (`server/model_register.py`) finds the model class for the name after `MODEL:`. The registry key is the class name converted by `camel_to_snake` (`server/common.py`).

This project models those steps and proves what they promise.

The Dafny modules follow the source files:

| module | file | models |
|---|---|---|
| `Wrappers` | wrappers.dfy | `Option` and `Result` |
| `Common` | common.dfy | `camel_to_snake`, `snake_to_camel` (server/common.py) |
| `ModelRegister` | model_register.dfy | the `ModelRegister` class |
| `Parser` | parser.dfy | the grammar as a recursive-descent parser over `seq<char>`, with the AST |
| `ParserTokens`, `ParserGrammar`, `ParserQuery` | parser_*.dfy | what each rule accepts, printers, parse-after-print round trips, the test examples |
| `Peewee` | peewee.dfy | the peewee model metadata (a catalog), model aliases, join records and the query record |
| `QueryTree` | query_tree.dfy | server/query/tree.py as an arena class `Tree` |
| `QueryBuilder` | query_builder.dfy | server/query/builder.py: plan functions and the `QueryBuilder` class |
| `QueryPlanFacts`, `QueryCallFacts` | query_plan_facts.dfy, query_call_facts.dfy | what `_add_to_node` and `__call__` promise |
| `LegacyQueryBuilder` | legacy_query_builder.dfy | server/query_builder.py, with its own `QueryTreeNode` |
| `LegacyPlanFacts`, `LegacyBuildFacts` | legacy_plan_facts.dfy, legacy_build_facts.dfy | what the earlier `_add_to_node` and `__init__` promise |
| `QueryResult`, `QueryResultFacts` | query_result.dfy, query_result_facts.dfy | `generate_result_object` and its properties |
| `Schema` | schema.dfy | the `User` and `Project` models of server/models.py as a concrete catalog |

How the source's entities are represented:

- **Query trees.** The tree node objects, which point at each other, become one class per tree (`QueryTree.Tree`, `LegacyQueryBuilder.LegacyTree`). Each holds a sequence of node records with parent indices and child and field index lists. The methods append to and update those sequences, as the Python constructors append to `parent.children` and `parent.fields`.
- **Builders.** Each builder is a class whose fields are what the Python object updates: `used_models`, `query`, the tree, and an alias counter. Every method is proved equal to a plan function (`Resolve`, `ResolveAll`, `CompileParsed`, `BuildParsed`). The properties are proved about those functions.
- **Peewee models.** The model classes become a `Catalog` that maps class names to their fields, foreign keys, backrefs and junction partners.
- **Aliases.** `Model.alias()` is an `Aliased(model, id)` reference, which is new on every call.
- **Query objects.** A peewee query is a record: the model it selects from, its joins, its selection, its group-by, its order-by and its limit.
- **Rows.** A result row is a `Value`: an atom, an instance with attributes, a list of rows (a select query), or nothing. The output of `generate_result_object` is a `Json` object whose entries keep insertion order, as a Python dict does.

Where the code and its tests disagree, the model follows the code, with two exceptions: the shape of a field path, and the n:1 join condition from an aliased node. Both are under Findings.

- **Field paths.** `Field` at server/parser.py:126-127 admits only `name` and `model.name`, and `FieldName` at server/parser.py:119-124 is a single identifier. The builders read `.values` of a selected `FieldName` as a dotted path of any length (server/query/builder.py:25). The tests expect `FieldName` to read `abc.def.ghi` as `['abc', 'def', 'ghi']` (tests/test_parser.py:39-47). The model parses a field as a non-empty dotted list of identifiers, which the builders need. The builders also test `isinstance(s, parser.FieldName)` for select items and second operands (server/query/builder.py:25 and :71, server/query_builder.py:16 and :63). The grammar gives those positions `Field` objects (server/parser.py:147-151 and :232), never `FieldName`, so as written the test is always false: a plain selected field would go to `s.field`, and a second operand that is a field would never be collected. The model reads the test as "is a field", as tests/test_parser.py:62 expects of an aggregation's field. The rule of `Field` as written is modelled too (`Parser.ParseFieldAsWritten`).
- **n:1 joins from an alias.** Both builders take the foreign key of an n:1 join from the class's fields (server/query/builder.py:95-101, server/query_builder.py:82-90), even when the node is bound to an alias. The model's planners join on the node's own model or alias instead. `QueryPlanFacts.ForeignKeyStepAsWritten` and `LegacyPlanFacts.ForeignKeyStepAsWritten` prove that the two joins coincide exactly when the node is bound to the class itself.
- **`=` in a query.** tests/test_parser.py:197 writes `abc.abc = def`. `=` is not a comparator of the grammar, so that whole query is rejected. The model follows the code.

## Model

| member | source | states |
|---|---|---|
| Common.Lower | server/common.py:10 | ASCII `lower()`: same length, each character lowered, nothing else changed |
| Common.Capitalize | server/common.py:14 | ASCII `capitalize()`: first character upper-cased, the rest lower-cased |
| Common.SplitUnderscore | server/common.py:14 | `split('_')` yields at least one word and no word holds `_` |
| Common.StripUnderscores | server/common.py:9-10 | the text with every `_` removed, holding no `_` |
| Common.CamelToSnakeNoUpper | server/common.py:8-10 | the output of `camel_to_snake` holds no ASCII capital |
| Common.CamelToSnakeOnlyInsertsUnderscores | server/common.py:4-10 | with underscores removed, the output equals the lower-cased input with underscores removed |
| Common.CamelToSnakeFixesLowerCase | server/common.py:4-10 | a name without capitals is returned unchanged |
| Common.SplitBeforeWordsMatch | server/common.py:4 | the first pattern puts `_` before a capitalised word that follows lower-case text, and consumes the whole word |
| Common.UnderscoreAtCapitalsConcat | server/common.py:5 | the second pattern inspects only neighbouring characters, so it distributes over a concatenation, with the seam checked |
| Common.CamelToSnakeOfWords | server/common.py:8-10 | a class name made of capitalised words becomes those words lower-cased and joined by `_` |
| Common.CamelToSnakeProject | server/common.py:8-10 | `Project` becomes `project` and `ProjectMembers` becomes `project_members`, the registry keys the schema relies on |
| Common.SnakeToCamelNoUnderscore | server/common.py:13-14 | the output of `snake_to_camel` holds no `_` |
| Common.SplitJoin | server/common.py:14 | `split('_')` undoes `'_'.join` of words without `_` |
| Common.JoinSplit | server/common.py:14 | `'_'.join` of `split('_')` gives the text back |
| Common.SnakeToCamelOfWords | server/common.py:13-14 | `snake_to_camel` capitalises each `_`-separated word and concatenates them in order |
| Common.CamelSnakeRoundTrip | server/common.py:8-14 | `snake_to_camel(camel_to_snake(n)) == n` for class names made of capitalised words |
| ModelRegister.Register.constructor | server/model_register.py:5-7 | both dictionaries start empty |
| ModelRegister.Register.AddModel | server/model_register.py:9-12 | the class is stored under `camel_to_snake(__name__)` and returned unchanged; a new key goes last in `model_names`, an existing key keeps its place and takes the new class; the junction dictionary is untouched |
| ModelRegister.Register.AddNm | server/model_register.py:14-16 | the junction is stored under its `__name__` and returned unchanged; membership, lookup and `model_names` are untouched |
| ModelRegister.Register.ModelNames | server/model_register.py:18-20 | the registered keys, each once, in first-insertion order |
| ModelRegister.Register.GetItem | server/model_register.py:25-26 | the class stored under the key, or `KeyError` exactly when the key is absent (`__contains__` at 22-23) |
| ModelRegister.RegisterSchemaExample | server/model_register.py:9-26 | after `add_model(Project)` and `add_nm(ProjectMembers)`, `project` finds `Project`, `ProjectMembers` is not a model key, and `model_names` is `['project']` |
| Parser.ComparatorOf | server/parser.py:181-184 | `Expression.comparator` is the comparison's comparator, and None exactly for a logical expression |
| Parser.LogicalOperatorOf | server/parser.py:186-189 | `Expression.logical_operator` is the operator, and None exactly for a plain comparison |
| Parser.ParseIdentifier | server/parser.py:61-62 | `Identifier`; every successful parse consumes input; what it accepts is `ParserTokens.IdentifierSpec` |
| Parser.ParseInteger | server/parser.py:47-52 | `Integer`; consumes input on success; what it accepts is `ParserTokens.IntegerSpec` |
| Parser.ParseString | server/parser.py:54-59 | `String`; consumes input on success; what it accepts is `ParserTokens.StringSpec` |
| Parser.StringBodyLength | server/parser.py:55 | the closing delimiter found by the lazy scan lies inside the text; `ParserTokens.StringBodyLengthSpec` states what it finds |
| Parser.ParseAggregator | server/parser.py:25-45 | `Aggregator`; consumes input on success; `ParserTokens.AggregatorSpec` states what it accepts |
| Parser.ParseComparator | server/parser.py:64-87 | `Comparator`; consumes input on success; `ParserTokens.ComparatorSpec` states what it accepts |
| Parser.ParseLogicalOperator | server/parser.py:89-103 | `LogicalOperator`; consumes input on success; `ParserTokens.LogicalOperatorSpec` states what it accepts |
| Parser.ParsePath | server/parser.py:119-136 | a field path; consumes input on success; `ParserGrammar.ParsedPathIsPath` and `ParserGrammar.PathRoundTrip` state what it reads |
| Parser.FieldModel | server/parser.py:130-132 | `Field.model` is present exactly for a two-segment field, and is its first segment |
| Parser.FieldName | server/parser.py:134-136 | `Field.name` is the last segment, an identifier |
| Parser.ParseFieldAsWritten | server/parser.py:126-127 | the literal `[(ModelName, '.', FieldName), FieldName]` rule; consumes input on success |
| Parser.ParseComparison | server/parser.py:145-156 | `Comparision`, the five alternatives in order; consumes input on success |
| Parser.ParseExpression | server/parser.py:158-194 | `Expression`, a comparison or `( E ) OP ( E )`; consumes input on success |
| Parser.ParseAggregation | server/parser.py:138-143 | `Aggregation`; consumes input on success |
| Parser.ParseSelect | server/parser.py:231-232 | `Select` yields at least one item |
| Parser.ParseFieldList | server/parser.py:234-238 | `GroupBy` and `OrderBy` yield at least one field |
| Parser.Optional | server/parser.py:247-249 | `optional(...)` yields a value exactly when the clause parses, and otherwise leaves the text alone |
| Parser.ParseAlias | server/parser.py:196-201 | `Alias`; consumes input on success |
| Parser.ParseModel | server/parser.py:203-213 | `Model`; consumes input on success |
| Parser.ParseJoin | server/parser.py:215-229 | `Join`; consumes input on success |
| Parser.ParseWhere | server/parser.py:240-241 | `Where`; consumes input on success |
| Parser.ParseQuery | server/parser.py:243-249 | `Query` has at least one selected item |
| Parser.Complete | server/query/builder.py:22 | `parse(text, thing)` succeeds exactly when the rule succeeds and only whitespace is left, and then yields the rule's value |
| Parser.ParseQueryText | server/query/builder.py:22 | `parse(cql_query, Query)` yields a query with at least one selected item |
| ParserTokens.SkipWhitespaceSpec | tests/test_parser.py:157-170 | skipping drops exactly the leading whitespace: what is left is a suffix that does not start with a blank |
| ParserTokens.TokenSpec | server/parser.py:4-23 | a literal keyword matches exactly when the text, blanks skipped, starts with it, and leaves what follows it |
| ParserTokens.IdentifierSpec | server/parser.py:61-62 | `Identifier` succeeds exactly on a leading letter, takes the longest run of `[a-zA-Z0-9_]` and leaves no identifier character behind |
| ParserTokens.IdentifierRoundTrip | server/parser.py:61-62 | an identifier followed by a character that cannot continue it is read back whole |
| ParserTokens.IdentifierText | server/parser.py:61-62 | on a text without blanks, `parse(s, Identifier)` succeeds exactly when `s` is an identifier, and yields it |
| ParserTokens.IdentifierAccepted | tests/test_parser.py:23 | `AbcAbc` is an identifier |
| ParserTokens.IdentifierRejectsLeadingDigit | tests/test_parser.py:24-25 | `1abc` is rejected |
| ParserTokens.IdentifierRejectsDot | tests/test_parser.py:26-27 | `abc.abc` is rejected |
| ParserTokens.IntegerSpec | server/parser.py:47-52 | `Integer` accepts `-?[1-9][0-9]*`, takes all the digits and yields their signed value, which is never 0 |
| ParserTokens.IntegerRoundTrip | server/parser.py:47-52 | a non-zero integer, printed and followed by a non-digit, reads back as itself |
| ParserTokens.IntegerExamples | tests/test_parser.py:6-9 | `-123` is -123, and `0` is rejected |
| ParserTokens.StringBodyLengthSpec | server/parser.py:55 | the scan stops at an unescaped closing delimiter, and the body before it is a valid string body |
| ParserTokens.StringSpec | server/parser.py:54-59 | `String` reads a delimiter, a body in which that delimiter occurs only escaped, and the same delimiter; its value is the body as written |
| ParserTokens.StringRoundTrip | server/parser.py:54-59 | a quoted valid body reads back as that body |
| ParserTokens.StringPlainText | server/parser.py:54-59 | a quoted text whose body has no backslash, newline or delimiter parses to that body |
| ParserTokens.StringDoubleQuoted | tests/test_parser.py:16 | `"test  string"` yields `test  string` |
| ParserTokens.StringSingleQuoted | tests/test_parser.py:17 | `'test  string'` yields `test  string` |
| ParserTokens.AggregatorSpec | server/parser.py:25-45 | `Aggregator` succeeds exactly when the text starts with one of the five keywords, colon included, and takes that keyword |
| ParserTokens.AggregatorRoundTrip | server/parser.py:25-45 | each keyword reads back as its aggregator |
| ParserTokens.AggregatorText | server/parser.py:25-45 | on a text without blanks, `parse(s, Aggregator)` succeeds exactly on the five keywords |
| ParserTokens.AggregatorExamples | tests/test_parser.py:49-58 | `COUNT:` is accepted; `SUM` and `ABC:` are rejected |
| ParserTokens.ComparatorSpec | server/parser.py:64-87 | `Comparator` takes the first of `==`, `>=`, `<=`, `>`, `<`, `!=` that the text starts with, and fails only when it starts with none |
| ParserTokens.ComparatorRoundTrip | server/parser.py:82-83 | a comparator not followed by `=` reads back as itself; `>=` is never read as `>` |
| ParserTokens.ComparatorText | tests/test_parser.py:67-73 | on a text without blanks, `parse(s, Comparator)` succeeds exactly on the six symbols |
| ParserTokens.LogicalOperatorSpec | server/parser.py:89-103 | `LogicalOperator` succeeds exactly when the text starts with `AND`, `OR` or `XOR`, and takes that keyword |
| ParserTokens.LogicalOperatorRoundTrip | server/parser.py:89-103 | each operator keyword reads back as its operator |
| ParserTokens.LogicalOperatorText | tests/test_parser.py:87-90 | on a text without blanks, `parse(s, LogicalOperator)` succeeds exactly on `AND`, `OR` and `XOR` |
| ParserGrammar.PathRoundTrip | tests/test_parser.py:39-45 | a printed dotted path followed by a stop reads back as the same list of identifiers |
| ParserGrammar.ParsedPathIsPath | server/parser.py:119-136 | every path the parser yields is a non-empty list of identifiers |
| ParserGrammar.ThreeSegmentPath | server/query/builder.py:25 | the field `abc.def.ghi` yields the path `['abc', 'def', 'ghi']`, as the builders read `.values` and as tests/test_parser.py:44-45 expect of `FieldName` |
| ParserGrammar.CommaIsNotAPath | tests/test_parser.py:46-47 | `abc,def` is not a field |
| ParserGrammar.FieldAsWrittenAgrees | server/parser.py:126-136 | the literal rule reads `name` and `model.name` as the path parser does |
| ParserGrammar.FieldAsWrittenRejectsThreeSegments | server/parser.py:126-127 | the literal rule rejects `abc.def.ghi` |
| ParserGrammar.SecondOperandAlternatives | server/parser.py:147-149 | which alternatives of `Comparision` can read an operand of each kind |
| ParserGrammar.ComparisonRoundTrip | server/parser.py:145-152 | a comparison printed field first reads back as itself, whatever kind of operand it has |
| ParserGrammar.LiteralFirstRoundTrip | server/parser.py:150-151 | the literal-first alternatives put the field in `first` and the literal in `second`, and keep the comparator as written |
| ParserGrammar.LiteralFirstExample | tests/test_parser.py:80 | `12 < abc` yields first `abc`, comparator `<`, second 12 |
| ParserGrammar.ComparisonFirstIsPath | server/parser.py:145-152 | in every comparison the parser yields, `first` is a field path |
| ParserGrammar.LiteralOpeningGoesSecond | server/parser.py:150-151 | a text that opens with a literal is read only by the literal-first alternatives, so its literal lands in `second` |
| ParserGrammar.ComparisonRejectsParen | server/parser.py:145-152 | no alternative of `Comparision` starts with `(` |
| ParserGrammar.ExpressionStart | server/parser.py:191-194 | a printed expression opens with `(` exactly when it is logical |
| ParserGrammar.ExpressionRoundTrip | server/parser.py:158-194 | every printable expression, a comparison or a nested logical expression, reads back as itself |
| ParserGrammar.LogicalRoundTrip | server/parser.py:191-194 | `( E ) OP ( E )` reads back with `first`, `logical_operator` and `second` at positions 0, 1 and 2 |
| ParserQuery.FieldIsNotAggregation | server/parser.py:232 | a field in `SELECT` is never mistaken for an aggregation |
| ParserQuery.AggregationRoundTrip | tests/test_parser.py:60-65 | `SUM: field1.field2` and its kin read back as the aggregator and the path |
| ParserQuery.SelectTailRoundTrip | server/parser.py:232 | the `, item` repetitions read back every printed item and stop at `)` |
| ParserQuery.SelectRoundTrip | tests/test_parser.py:118-127 | `SELECT: ( item, ... )` reads back its items in order |
| ParserQuery.FieldListRoundTrip | tests/test_parser.py:129-140 | `GROUPBY: ( Field, ... )` and `ORDERBY: ( Field, ... )` read back their paths in order |
| ParserQuery.AggregationInFieldList | server/parser.py:235 | after `, SUM` the list reader stops at the colon |
| ParserQuery.FieldListRejectsAggregation | server/parser.py:234-238 | an aggregation inside `GROUPBY` or `ORDERBY` is a syntax error |
| ParserQuery.GroupByOrderByRejectAggregation | tests/test_parser.py:134-143 | with `kw` either `GROUPBY:` or `ORDERBY:`, `kw (field1, SUM: field2)` is rejected |
| ParserQuery.OptionalAliasRoundTrip | server/parser.py:196-204 | the optional alias reads back as itself, present or absent |
| ParserQuery.ModelRoundTrip | tests/test_parser.py:114-116 | `MODEL: name [ALIAS: name]` reads back as itself |
| ParserQuery.JoinRoundTrip | server/parser.py:215-216 | `JOINON: Field [ALIAS: name]` reads back as itself |
| ParserQuery.JoinsRoundTrip | server/parser.py:245 | the `JOINON:` clauses read back in order and stop at `SELECT:` |
| ParserQuery.OptionalFieldListRoundTrip | server/parser.py:247-248 | an optional `GROUPBY` or `ORDERBY` reads back as itself, present or absent (None), when what follows does not start like its keyword |
| ParserQuery.OptionalWhereRoundTrip | server/parser.py:249 | an optional `WHERE` at the end reads back as itself, present or absent |
| ParserQuery.QueryTailRoundTrip | server/parser.py:246-249 | after `MODEL` and the joins: the select items, then `GROUPBY`, `ORDERBY` and `WHERE`, each present or absent |
| ParserQuery.QueryHeadRoundTrip | server/parser.py:244-245 | the model and join clauses, up to `SELECT:` |
| ParserQuery.QueryRoundTrip | server/parser.py:243-249 | every printable query, printed and parsed again, is itself: sections in the fixed order Model, Join*, Select, GroupBy?, OrderBy?, Where? |
| Peewee.SelectFrom | server/query/builder.py:36 | `model.select()`: from that model, no joins, selection, grouping, ordering or limit |
| Peewee.JoinModel | server/query/builder.py:97-100 | the class itself, recorded in `used_models`, on its first join; a fresh alias on every later one; `used_models` stays free of duplicates |
| Peewee.AggregateAlias | server/query/builder.py:43-52 | the alias of an aggregate is its function's lower-case name |
| Peewee.ProjectionOf | server/query/builder.py:41-52 | a bare path passes through unchanged; an aggregated one is wrapped in its aggregate and aliased |
| QueryTree.FreshNode | server/query/tree.py:2-12 | a new node has no children, fields or commands |
| QueryTree.ChildAddedShape | server/query/tree.py:8-15 | appending a fresh child keeps the arena well formed |
| QueryTree.FieldAddedShape | server/query/tree.py:48-55 | appending a fresh field node keeps the arena well formed |
| QueryTree.CommandsSetShape | server/query/tree.py:12 | changing a node's commands leaves the shape alone |
| QueryTree.ChildAddedNames | server/query/tree.py:14-20 | appending a child under a name `get_child` does not find keeps every node's children distinctly named |
| QueryTree.ChildAddedNamesAt | server/query/tree.py:14-20 | at the parent itself, the new child's name differs from every earlier child's |
| QueryTree.SameChildNames | server/query/tree.py:11-18 | changes that leave names and child lists alone keep the children distinctly named |
| QueryTree.FirstNodeNamedSpec | server/query/tree.py:20-24 | `get_child` finds a child carrying the name, and no earlier child carries it; no match means no child carries it |
| QueryTree.FirstFieldNamedSpec | server/query/tree.py:26-30 | the same for `get_field` |
| QueryTree.FirstNodeNamedAppend | server/query/tree.py:20-24 | appending a child keeps an earlier match; without one, the new child is found when it carries the name |
| QueryTree.FirstFieldNamedAppend | server/query/tree.py:26-30 | the same for field nodes |
| QueryTree.FirstNodeNamedExtend | server/query/tree.py:20-24 | what `get_child` found once it finds again after the list grows |
| QueryTree.FirstFieldNamedExtend | server/query/tree.py:26-30 | the same for `get_field` |
| QueryTree.FirstNodeNamedNames | server/query/tree.py:20-24 | the lookup reads only the children's names |
| QueryTree.FirstFieldNamedNames | server/query/tree.py:26-30 | the lookup reads only the field nodes' names |
| QueryTree.FieldsOfMembers | server/query/tree.py:69-72 | a field node is in the filtered walk exactly when the walk yields it |
| QueryTree.FieldsOfFieldItems | server/query/tree.py:69-72 | `field_iter` yields exactly the node's fields followed by the field nodes of the children's walks |
| QueryTree.IterShape | server/query/tree.py:36-42 | the walk yields the node, then its fields in order, then each child's walk; its length is one plus the fields plus the children's walks |
| QueryTree.IterBounds | server/query/tree.py:36-42 | the walk of a node yields only that node, nodes after it in the arena and field nodes that exist |
| QueryTree.Tree.constructor | server/query/tree.py:61-63 | `QueryTree(model)`: one root named after the model, with nothing below it |
| QueryTree.Tree.RootIsFirst | server/query/tree.py:32-34 | `is_root` holds of the first node only; every node `add_child` makes has a parent |
| QueryTree.Tree.AddChild | server/query/tree.py:14-15 | one node appended at the end of the parent's children, carrying the given name, model, shadow name and parent, with nothing of its own; nothing else changes |
| QueryTree.Tree.AddField | server/query/tree.py:17-18 | one field node appended at the end of the parent's fields, with no commands; the children are untouched |
| QueryTree.Tree.AddNodeCommand | server/query/builder.py:103-104 | the command is appended to that node alone |
| QueryTree.Tree.AddFieldCommand | server/query/builder.py:88-89 | the command is appended to that field node alone |
| QueryTree.Tree.GetChild | server/query/tree.py:20-24 | the loop returns the first child with that name, or nothing |
| QueryTree.Tree.GetField | server/query/tree.py:26-30 | the loop returns the first field node with that name, or nothing |
| QueryTree.Tree.NodeIter | server/query/tree.py:65-67 | `node_iter` is the pre-order walk from the root |
| QueryTree.Tree.FieldIter | server/query/tree.py:69-72 | `field_iter` yields the field nodes of that walk, in its order |
| QueryBuilder.ForeignKeyCondition | server/query/builder.py:95-101 | the n:1 condition ties the node's own model or alias to the target's primary key, both ends of the join |
| QueryBuilder.ForeignKeyConditionAsWritten | server/query/builder.py:95-101 | the condition as written agrees with the intended one whenever the node is bound to the class itself |
| QueryBuilder.ForeignKeyConditionAsWrittenFromAlias | server/query/builder.py:95-101 | from an aliased node, the condition as written names a model that is not an end of the join |
| QueryBuilder.AppendChild | server/query/builder.py:102 | `add_child` on the plan adds exactly one node; field nodes, `used_models` and joins are unchanged |
| QueryBuilder.ForeignKeyConditionAgrees | server/query/builder.py:95-101 | the condition as written equals the model's exactly when the node is bound to the class, not to an alias |
| QueryBuilder.AppendChildOk | server/query/builder.py:93-102 | adding a child under a name that `get_child` did not find keeps the plan invariant, distinct child names included |
| QueryBuilder.AppendField | server/query/builder.py:87 | `add_field` on the plan adds exactly one field node and nothing else |
| QueryBuilder.AppendFieldOk | server/query/builder.py:87 | adding a field node keeps the plan invariant |
| QueryBuilder.TagNode | server/query/builder.py:103-104 | afterwards the node holds the command; nothing else in the plan changes |
| QueryBuilder.TagNodeOk | server/query/builder.py:103-104 | tagging keeps every command list free of duplicates |
| QueryBuilder.TagField | server/query/builder.py:88-89 | afterwards the field node holds the command; nothing else changes |
| QueryBuilder.TagFieldOk | server/query/builder.py:88-89 | tagging a field node keeps the plan invariant |
| QueryBuilder.FieldStep | server/query/builder.py:85-87 | the plain-field step keeps the plan invariant and yields an existing field node |
| QueryBuilder.ForeignKeyStep | server/query/builder.py:93-102 | the n:1 step keeps the plan invariant and yields an existing child; its join uses the corrected condition of Findings row 2 |
| QueryBuilder.BackrefStep | server/query/builder.py:110-119 | the 1:n step keeps the plan invariant and yields an existing child |
| QueryBuilder.FarSide | server/query/builder.py:129-132 | the junction's other foreign key exists and points at a model of the catalog |
| QueryBuilder.NmStep | server/query/builder.py:127-145 | the n:m step keeps the plan invariant and yields an existing child |
| QueryBuilder.KindOf | server/query/builder.py:80-152 | the dispatch order: a plain field exactly when the name is a non-foreign-key field; a field is plain or a foreign key; unknown exactly when the name is neither a field nor a backref |
| QueryBuilder.Resolve | server/query/builder.py:77-152 | `_add_to_node` keeps the plan invariant; what it adds and returns, and its two errors, are in `QueryPlanFacts.ResolveRecords` and `QueryPlanFacts.ResolveRejects` |
| QueryBuilder.Descend | server/query/builder.py:103-107 | the shared tail of the relation branches keeps the plan invariant |
| QueryBuilder.ResolveAll | server/query/builder.py:54-55 | a clause loop keeps the plan invariant and yields one value per path |
| QueryBuilder.ResolveAllStep | server/query/builder.py:54-55 | one more path extends the loop by resolving that path from the root |
| QueryBuilder.ResolveAllStops | server/query/builder.py:54-55 | once a prefix of the paths fails, the loop ends with that failure |
| QueryBuilder.Comparisons | server/query/builder.py:65-75 | an expression has at least one comparison |
| QueryBuilder.ComparisonFields | server/query/builder.py:70-75 | a comparison yields its field, then its second operand exactly when that is a field with a non-empty path |
| QueryBuilder.ExpressionFields | server/query/builder.py:65-75 | `_expression_fields` yields between one and two paths per comparison, starting with the first comparison's field |
| QueryBuilder.SelectionFields | server/query/builder.py:24-27 | one entry per select item, in order, carrying its path and aggregator |
| QueryBuilder.Selections | server/query/builder.py:38-52 | one projection per selected path, in order: the value itself, or its aggregate aliased by the lower-case name |
| QueryBuilder.ClausePaths | server/query/builder.py:28-29 | a missing clause is an empty list; a present one is its paths |
| QueryBuilder.RootPlan | server/query/builder.py:32-34 | the tree holds only the root, named after the model and untagged, and `used_models` is that model |
| QueryBuilder.CompileParsed | server/query/builder.py:20-63 | a tree exists exactly when a query does, and the query joins what the plan joined |
| QueryBuilder.SelectStage | server/query/builder.py:38-52 | the selection loop and what follows keep the plan invariant and the query's joins |
| QueryBuilder.GroupByStage | server/query/builder.py:54 | the group-by loop and what follows keep the plan invariant and the query's joins |
| QueryBuilder.OrderByStage | server/query/builder.py:55-61 | the order-by loop and the final query keep the plan invariant and the query's joins |
| QueryBuilder.Compile | server/query/builder.py:17-63 | parsing and then compiling: a tree exists exactly when a query does, with the plan's joins |
| QueryBuilder.QueryBuilder.constructor | server/query/builder.py:10-15 | `QueryBuilder(mr)`: nothing planned, no tree, no query |
| QueryBuilder.QueryBuilder.JoinIdentity | server/query/builder.py:97-100 | the model, or an alias, exactly as `Peewee.JoinModel` picks it, with `used_models` updated |
| QueryBuilder.QueryBuilder.AddJoin | server/query/builder.py:101 | the query gains exactly that join at its end |
| QueryBuilder.QueryBuilder.StepField | server/query/builder.py:85-87 | the object's state after the step is `FieldStep` of the state before |
| QueryBuilder.QueryBuilder.StepForeignKey | server/query/builder.py:93-102 | the state after the step is `ForeignKeyStep` of the state before, with its corrected n:1 join |
| QueryBuilder.QueryBuilder.StepBackref | server/query/builder.py:110-119 | the state after the step is `BackrefStep` of the state before |
| QueryBuilder.QueryBuilder.StepNm | server/query/builder.py:127-145 | the state after the step is `NmStep` of the state before |
| QueryBuilder.QueryBuilder.AddToNode | server/query/builder.py:77-152 | the returned value and the new tree, `used_models` and joins are `Resolve` of the old state |
| QueryBuilder.QueryBuilder.ForeignKeyBranch | server/query/builder.py:91-107 | the n:1 branch ends in the state `Resolve` describes, with its corrected n:1 join |
| QueryBuilder.QueryBuilder.BackrefBranch | server/query/builder.py:108-124 | the 1:n branch ends in the state `Resolve` describes |
| QueryBuilder.QueryBuilder.NmBranch | server/query/builder.py:125-150 | the n:m branch ends in the state `Resolve` describes |
| QueryBuilder.QueryBuilder.AddToField | server/query/builder.py:82-90 | the plain-field branch ends in the state `Resolve` describes |
| QueryBuilder.QueryBuilder.TagAndDescend | server/query/builder.py:103-107 | the tagging and the recursion end in the state `Descend` describes |
| QueryBuilder.QueryBuilder.ResolvePaths | server/query/builder.py:54-55 | a clause loop ends in the state `ResolveAll` describes |
| QueryBuilder.QueryBuilder.SelectClause | server/query/builder.py:38-52 | the selection loop and what follows end as `SelectStage` describes |
| QueryBuilder.QueryBuilder.GroupByClause | server/query/builder.py:54 | the group-by loop and what follows end as `GroupByStage` describes |
| QueryBuilder.QueryBuilder.OrderByClause | server/query/builder.py:55-61 | the order-by loop and the final query end as `OrderByStage` describes |
| QueryBuilder.QueryBuilder.CallParsed | server/query/builder.py:20-63 | an unknown model changes nothing; otherwise a fresh tree and the query, or the error, as `CompileParsed` describes |
| QueryBuilder.QueryBuilder.Call | server/query/builder.py:17-63 | `__call__(cql_query)` returns the query and tree, or the error, as `Compile` describes |
| QueryPlanFacts.AppendChildGrows | server/query/tree.py:14-15 | adding a child to a node changes that node only in its child list |
| QueryPlanFacts.AppendNewChild | server/query/builder.py:102 | a child of a name the node did not have is found by `get_child` afterwards |
| QueryPlanFacts.FoundChild | server/query/tree.py:20-24 | an existing child comes after its parent in the arena |
| QueryPlanFacts.AppendFieldGrows | server/query/tree.py:17-18 | adding a field node changes the node only in its field list |
| QueryPlanFacts.TagNodeGrows | server/query/builder.py:103-104 | tagging a child changes it only in its command list |
| QueryPlanFacts.TagFieldGrows | server/query/builder.py:88-89 | tagging a field node changes nothing but its command list |
| QueryPlanFacts.ResolveFrame | server/query/builder.py:77-152 | `_add_to_node` only grows the plan, leaves the nodes before the start node alone and never tags the start node, so the root is never tagged |
| QueryPlanFacts.TagKept | server/query/builder.py:88-89 | a tag, once given, stays |
| QueryPlanFacts.ExistingFieldGrown | server/query/tree.py:26-30 | `get_field` finds the same tagged field node after the plan grows |
| QueryPlanFacts.ChildGrown | server/query/tree.py:20-24 | `get_child` finds the same child after the plan grows |
| QueryPlanFacts.ExistingGrown | server/query/builder.py:77-152 | what a path leads to in the tree stays put when the plan grows |
| QueryPlanFacts.ResolveRecords | server/query/builder.py:77-152 | after a successful `_add_to_node` with command C, the path leads through the tree, tagged C all the way, to the returned value |
| QueryPlanFacts.ResolveRejects | server/query/builder.py:82-84 | a plain field with segments after it, or a segment that is neither a field nor a backref (builder.py:151-152), raises an error naming the field and the model and leaves the plan alone |
| QueryPlanFacts.DescendRecords | server/query/builder.py:103-107 | the relation tail tags the child and hands it back or resolves the rest of the path from it |
| QueryPlanFacts.ExistingStep | server/query/builder.py:103-107 | through an existing tagged child, a path leads where its tail leads from that child |
| QueryPlanFacts.ExistingResolves | server/query/builder.py:85-147 | a path already in the tree, tagged, resolves to what it leads to and changes nothing |
| QueryPlanFacts.ResolveIdempotent | server/query/builder.py:85-147 | re-resolving a path just resolved adds no node, field node, join or tag and returns the same value |
| QueryPlanFacts.ExpressionFieldsInOrder | server/query/builder.py:65-75 | `_expression_fields` lists, comparison by comparison from left to right, its field and then its second operand when that is a field |
| QueryPlanFacts.ExpressionFieldsMembers | server/query/builder.py:65-75 | a path is a where field exactly when some comparison has it as its field or as a second operand that is a field |
| QueryPlanFacts.RelationStepReuses | server/query/builder.py:93-94 | a relation segment already in the tree is reused: nothing is added and no join is made |
| QueryPlanFacts.ForeignKeyStepAdds | server/query/builder.py:93-102 | a new n:1 child is named after the foreign key and bound to the target (the class itself on its first join, an alias after that), with one join on the node's own foreign key (the corrected condition) |
| QueryPlanFacts.ForeignKeyStepAsWritten | server/query/builder.py:95-101 | the join a new n:1 child adds is the one the source writes exactly when the parent node is bound to its class |
| QueryPlanFacts.BackrefStepAdds | server/query/builder.py:110-119 | a new 1:n child is named after the backref and bound to the model declaring the foreign key, with one join on it |
| QueryPlanFacts.NmStepAdds | server/query/builder.py:127-145 | a new n:m child is bound to the far model and shadowed by the junction's other foreign key, reached by two joins: node to junction and junction to far model |
| QueryPlanFacts.ResolveAllFrame | server/query/builder.py:54-55 | a clause loop only grows the plan and never tags the root |
| QueryPlanFacts.AllExistingGrown | server/query/builder.py:54-55 | the values a clause's paths lead to stay put when the plan grows |
| QueryPlanFacts.ResolveAllRecords | server/query/builder.py:54-55 | after a successful clause loop, each path leads from the root, tagged with the clause's command, to the value collected for it, in clause order |
| QueryPlanFacts.ResolveAllSame | server/query/builder.py:54-55 | one more path that changes nothing extends the collected values |
| QueryPlanFacts.ExistingAllResolve | server/query/builder.py:54-55 | paths all in the tree, tagged, resolve to what they lead to and change nothing |
| QueryPlanFacts.ResolveAllIdempotent | server/query/builder.py:54-55 | running a clause loop a second time adds nothing and collects the same values |
| QueryCallFacts.SelectPaths | server/query/builder.py:24-27 | the paths of the select clause, aggregated or not, in order |
| QueryCallFacts.OrderByStageFacts | server/query/builder.py:55-61 | on success, the order-by paths' values in order are the query's order-by, the group-by values are those handed in, and the limit is 1000 |
| QueryCallFacts.GroupByStageFacts | server/query/builder.py:54-61 | the grouped paths are in the final plan, tagged `GROUPBY`, and their values are the query's group-by |
| QueryCallFacts.SelectStageFacts | server/query/builder.py:38-61 | the selected paths are settled in the final plan, tagged `SELECT` |
| QueryCallFacts.CompileParsedFacts | server/query/builder.py:20-63 | an unknown model raises `KeyError` before any tree exists; otherwise the root is named after the model and untagged, and a successful query selects from the model with the plan's joins, the clause values in order, no selection list and the limit 1000 |
| QueryCallFacts.CompileParsedReadsOnly | server/query/builder.py:20-63 | only the model's name and the field paths of the select, group-by and order-by clauses decide the outcome |
| QueryCallFacts.CompileIgnoresWhere | server/query/builder.py:30 | the `where` clause never changes the outcome |
| LegacyQueryBuilder.FreshNode | server/query_builder.py:139-147 | a new node has no children and no fields |
| LegacyQueryBuilder.WithChild | server/query_builder.py:143-150 | `add_child` appends one node to the parent's children, with the given name and model and that parent |
| LegacyQueryBuilder.WithChildKeeps | server/query_builder.py:143-150 | `add_child` changes no other node |
| LegacyQueryBuilder.WithChildShape | server/query_builder.py:143-150 | `add_child` keeps the arena well formed |
| LegacyQueryBuilder.WithField | server/query_builder.py:77-78 | `node.fields.append(name)` appends the name to that node |
| LegacyQueryBuilder.WithFieldKeeps | server/query_builder.py:77-78 | appending a field name changes no other node |
| LegacyQueryBuilder.WithFieldShape | server/query_builder.py:77-78 | appending a field name keeps the arena well formed |
| LegacyQueryBuilder.FirstNamedNone | server/query_builder.py:152-156 | no match means no child carries the name |
| LegacyQueryBuilder.FirstNamedIsFirst | server/query_builder.py:152-156 | the match carries the name and comes before every other child of that name |
| LegacyQueryBuilder.FirstNamedExtend | server/query_builder.py:152-156 | a match stays the match when the child list grows at its end |
| LegacyQueryBuilder.FirstNamedAppend | server/query_builder.py:152-156 | appending a child that carries the name to a list without a match makes it the match |
| LegacyQueryBuilder.IterChildrenMembers | server/query_builder.py:166-170 | the children's walks are empty exactly when there are no children left, and each starts with its child |
| LegacyQueryBuilder.IterShape | server/query_builder.py:162-170 | the walk yields the node, then each child's walk, never a field; it is the node alone exactly when `is_leaf` holds |
| LegacyQueryBuilder.IterBounds | server/query_builder.py:166-170 | the walk of a node yields only that node and nodes after it |
| LegacyQueryBuilder.LegacyTree.constructor | server/query_builder.py:25 | `QueryTreeNode(model._name, model=model)`: a root alone |
| LegacyQueryBuilder.LegacyTree.RootIsFirst | server/query_builder.py:158-160 | `is_root` holds of the first node only |
| LegacyQueryBuilder.LegacyTree.AddChild | server/query_builder.py:149-150 | one node appended at the end of the parent's children; nothing else changes |
| LegacyQueryBuilder.LegacyTree.AddFieldName | server/query_builder.py:77-78 | the name is appended to the node's fields; nothing else changes |
| LegacyQueryBuilder.LegacyTree.GetChild | server/query_builder.py:152-156 | the loop returns the first child with that name, or nothing |
| LegacyQueryBuilder.LegacyTree.Walk | server/query_builder.py:166-170 | `__iter__` yields the walk `Iter` describes |
| LegacyQueryBuilder.AppendChild | server/query_builder.py:91 | `add_child` on the plan adds exactly one node and changes neither `used_models` nor the joins |
| LegacyQueryBuilder.AppendChildOk | server/query_builder.py:91 | adding a child keeps the plan invariant |
| LegacyQueryBuilder.AddField | server/query_builder.py:77-78 | afterwards the node lists the name, once; nothing else changes |
| LegacyQueryBuilder.AddFieldOk | server/query_builder.py:77-78 | listing a name keeps the plan invariant, with field names distinct |
| LegacyQueryBuilder.ForeignKeyStep | server/query_builder.py:82-91 | the n:1 step keeps the plan invariant and yields an existing child; its join uses the corrected condition of Findings row 3 |
| LegacyQueryBuilder.BackrefStep | server/query_builder.py:97-106 | the 1:n step keeps the plan invariant and yields an existing child |
| LegacyQueryBuilder.NmStep | server/query_builder.py:112-130 | the n:m step keeps the plan invariant and yields an existing child |
| LegacyQueryBuilder.Resolve | server/query_builder.py:69-135 | `_add_to_node` keeps the plan invariant |
| LegacyQueryBuilder.Descend | server/query_builder.py:92-94 | the relation tail keeps the plan invariant |
| LegacyQueryBuilder.ResolveAll | server/query_builder.py:46-47 | a clause loop keeps the plan invariant and yields one value per path |
| LegacyQueryBuilder.ResolveAllStep | server/query_builder.py:46-47 | one more path extends the loop by resolving it from the root |
| LegacyQueryBuilder.ResolveAllStops | server/query_builder.py:46-47 | once a prefix fails, the loop ends with that failure |
| LegacyQueryBuilder.RootPlan | server/query_builder.py:24-26 | the tree is a root named after the model and `used_models` holds that model |
| LegacyQueryBuilder.BuildParsed | server/query_builder.py:12-54 | a tree exists exactly when the model is known, and every query joins what the plan joined |
| LegacyQueryBuilder.SelectStage | server/query_builder.py:30-44 | the selection loop and what follows keep the plan invariant |
| LegacyQueryBuilder.GroupByStage | server/query_builder.py:46 | the group-by loop and what follows keep the plan invariant |
| LegacyQueryBuilder.OrderByStage | server/query_builder.py:47-54 | the order-by loop and the final query keep the plan invariant |
| LegacyQueryBuilder.Build | server/query_builder.py:8-54 | parsing and then building: a tree exists exactly when the query parsed and the model is known |
| LegacyQueryBuilder.LegacyQueryBuilder.constructor | server/query_builder.py:9-12 | the query text and registry are stored and `used_models` is empty |
| LegacyQueryBuilder.LegacyQueryBuilder.JoinIdentity | server/query_builder.py:86-89 | the model, or an alias, exactly as `Peewee.JoinModel` picks it |
| LegacyQueryBuilder.LegacyQueryBuilder.AddJoin | server/query_builder.py:90 | the query gains exactly that join at its end |
| LegacyQueryBuilder.LegacyQueryBuilder.StepForeignKey | server/query_builder.py:82-91 | the state after the step is `ForeignKeyStep` of the state before, with its corrected n:1 join |
| LegacyQueryBuilder.LegacyQueryBuilder.StepBackref | server/query_builder.py:97-106 | the state after the step is `BackrefStep` of the state before |
| LegacyQueryBuilder.LegacyQueryBuilder.StepNm | server/query_builder.py:112-130 | the state after the step is `NmStep` of the state before |
| LegacyQueryBuilder.LegacyQueryBuilder.AddToNode | server/query_builder.py:69-135 | the returned value and the new state are `Resolve` of the old state |
| LegacyQueryBuilder.LegacyQueryBuilder.RelationBranch | server/query_builder.py:80-133 | each relation branch ends in the state `Resolve` describes, the n:1 one with its corrected join |
| LegacyQueryBuilder.LegacyQueryBuilder.ResolvePaths | server/query_builder.py:46-47 | a clause loop ends in the state `ResolveAll` describes |
| LegacyQueryBuilder.LegacyQueryBuilder.Run | server/query_builder.py:14-54 | after parsing, the object holds the query `Build` describes, or the error |
| LegacyQueryBuilder.LegacyQueryBuilder.RunParsed | server/query_builder.py:24-54 | after the registry lookup, the state `BuildParsed` describes |
| LegacyQueryBuilder.LegacyQueryBuilder.SelectLoop | server/query_builder.py:30-44 | the selection loop ends as `SelectStage` describes |
| LegacyQueryBuilder.LegacyQueryBuilder.GroupByLoop | server/query_builder.py:46 | the group-by loop ends as `GroupByStage` describes |
| LegacyQueryBuilder.LegacyQueryBuilder.OrderByLoop | server/query_builder.py:47-54 | the order-by loop and the lines that overwrite `self.query` end as `OrderByStage` describes |
| LegacyQueryBuilder.New | server/query_builder.py:8-54 | `QueryBuilder(cql_query, mr)` is a new object holding the query `Build` describes, or the error `__init__` raises |
| LegacyPlanFacts.AppendChildGrows | server/query_builder.py:149-150 | adding a child changes the parent only in its child list |
| LegacyPlanFacts.AppendNewChild | server/query_builder.py:91 | a child of a new name is found by `get_child` afterwards |
| LegacyPlanFacts.FoundChild | server/query_builder.py:152-156 | an existing child comes after its parent |
| LegacyPlanFacts.AddFieldGrows | server/query_builder.py:74-79 | the plain-field step lists the name at that node and leaves everything else alone |
| LegacyPlanFacts.ResolveGrows | server/query_builder.py:69-135 | resolving a path only grows the plan |
| LegacyPlanFacts.ChildGrown | server/query_builder.py:152-156 | `get_child` finds the same child once the plan grew |
| LegacyPlanFacts.ExistingGrown | server/query_builder.py:69-135 | what a path leads to in the tree stays put when the plan grows |
| LegacyPlanFacts.ResolveRecords | server/query_builder.py:69-135 | after a successful `_add_to_node`, the path leads through the tree to the returned value |
| LegacyPlanFacts.DescendRecords | server/query_builder.py:92-94 | the relation tail hands back the child or resolves the rest of the path from it |
| LegacyPlanFacts.ExistingStep | server/query_builder.py:92-94 | through an existing child, a path leads where its tail leads from that child |
| LegacyPlanFacts.ExistingResolves | server/query_builder.py:74-133 | a path already in the tree resolves to what it leads to and changes nothing |
| LegacyPlanFacts.ResolveIdempotent | server/query_builder.py:74-133 | re-resolving a path just resolved adds no node, field name or join and returns the same value |
| LegacyPlanFacts.AddFieldOnce | server/query_builder.py:77-78 | listing a name twice lists it once, and a node's names stay distinct |
| LegacyPlanFacts.ResolveRejects | server/query_builder.py:76 | a plain field with segments after it, or a segment that is neither a field nor a backref (134-135), raises an error naming the field and the model and leaves the plan alone |
| LegacyPlanFacts.RelationStepReuses | server/query_builder.py:82-83 | a relation segment already in the tree is reused: nothing added, no join |
| LegacyPlanFacts.ForeignKeyStepAdds | server/query_builder.py:82-91 | a new n:1 child is named after the foreign key and bound to the target (the class first, an alias after), with one join on the node's own foreign key (the corrected condition) |
| LegacyPlanFacts.ForeignKeyStepAsWritten | server/query_builder.py:82-90 | the join a new n:1 child adds is the one the source writes exactly when the parent node is bound to its class |
| LegacyPlanFacts.BackrefStepAdds | server/query_builder.py:97-106 | a new 1:n child is bound to the model declaring the foreign key, with one join on it |
| LegacyPlanFacts.NmStepAdds | server/query_builder.py:112-130 | a new n:m child is bound to the far model with no shadow name, reached by two joins through the junction |
| LegacyPlanFacts.ResolveAllGrows | server/query_builder.py:46-47 | a clause loop only grows the plan |
| LegacyPlanFacts.AllExistingGrown | server/query_builder.py:46-47 | the values a clause's paths lead to stay put when the plan grows |
| LegacyPlanFacts.ResolveAllRecords | server/query_builder.py:46-47 | after a successful clause loop, each path leads from the root to the value collected for it, in clause order |
| LegacyPlanFacts.ResolveAllSame | server/query_builder.py:46-47 | one more path that changes nothing extends the collected values |
| LegacyPlanFacts.ExistingAllResolve | server/query_builder.py:46-47 | paths all in the tree resolve to what they lead to and change nothing |
| LegacyPlanFacts.ResolveAllIdempotent | server/query_builder.py:46-47 | running a clause loop a second time adds nothing and collects the same values |
| LegacyBuildFacts.OrderByStageFacts | server/query_builder.py:47-54 | on success, the order-by paths' values in order are the query's order-by; the group-by values and the selection list are those handed in; the limit is 1000 |
| LegacyBuildFacts.GroupByStageFacts | server/query_builder.py:46-54 | the grouped paths lead, in the final tree, to the query's group-by values |
| LegacyBuildFacts.SelectStageFacts | server/query_builder.py:30-54 | the selected paths are settled in the final tree, and the selection list projects their values with the clause's aggregators |
| LegacyBuildFacts.BuildParsedFacts | server/query_builder.py:12-54 | an unknown model raises `KeyError` before any tree; otherwise the root is named after the model, and a successful query selects from it with the plan's joins, the selection list, the clause values in order and the limit 1000 |
| LegacyBuildFacts.BuildParsedReadsOnly | server/query_builder.py:12-54 | only the model's name, the selected paths with their aggregators and the group-by and order-by paths decide the outcome |
| LegacyBuildFacts.BuildIgnoresWhere | server/query_builder.py:21 | the `where` clause never changes the outcome |
| QueryResult.GetAttr | server/query/result.py:10-13 | `getattr` succeeds exactly on an instance that has the attribute, yielding that attribute's value, and otherwise raises `AttributeError` naming it |
| QueryResult.Lookup | server/query/result.py:7-22 | `result[key]` is present exactly when the key is |
| QueryResult.Put | server/query/result.py:10 | `result[key] = j` adds the key, maps it to `j`, keeps every other entry and keeps the keys distinct |
| QueryResult.GenerateResultObject | server/query/result.py:6-22 | the method returns the object, or the error, that `Generate` describes |
| QueryResult.FieldLoop | server/query/result.py:8-10 | the field loop returns the entries `FieldEntries` describes |
| QueryResult.ChildLoop | server/query/result.py:11-21 | the child loop returns the entries `ChildEntries` describes |
| QueryResult.ChildObject | server/query/result.py:14-21 | the `isinstance` dispatch returns what `ChildJson` describes |
| QueryResult.RowObjects | server/query/result.py:16-21 | the list comprehension returns what `RowsJson` describes |
| QueryResultFacts.GenerateKeys | server/query/result.py:6-22 | on success the result is an object with distinct keys: exactly the names of `SELECT`-tagged field nodes, and of `SELECT`-tagged children whose attribute is an instance or a select query |
| QueryResultFacts.GenerateValues | server/query/result.py:8-21 | a selected field's key holds the row's attribute, unless a selected child of that name overwrote it; when the children's names are distinct, a selected child's key holds its nested object or list |
| QueryResultFacts.GenerateValuesInPlan | server/query/result.py:11-21 | on a tree the builder made, whose children never share a name, a selected child's key holds its nested object or list |
| QueryResultFacts.ChildJsonSome | server/query/result.py:14-21 | an attribute turns into a key exactly when it is an instance or a select query |
| QueryResultFacts.ChildJsonFacts | server/query/result.py:14-21 | an instance becomes the nested object of the child node; a select query becomes the list of its rows' objects; anything else adds no key |
| QueryResultFacts.RowsJsonFacts | server/query/result.py:16-21 | the rows become a list with one object per row, in row order, made from the row itself or from the row's shadow attribute; it fails exactly when one of those fails |
| QueryResultFacts.GenerateReadsSelected | server/query/result.py:8-13 | the object depends only on the row attributes that `SELECT`-tagged field nodes and children name |
| Schema.SchemaValid | server/models.py:9-34 | every foreign key of `User` and `Project` leads to a model, every backref to the foreign key that made it, and the registry hands out only these classes |
| Schema.ForkedFromTwice | server/query/builder.py:93-102 | `project { forked_from.forked_from }`: the first step binds an alias, joined on the root class's key; the second binds a second alias, joined on the first alias's key; the source's condition for it names the class instead, an end of neither join, so the model's join differs from the source's |
| Schema.LegacyForkedFromTwice | server/query_builder.py:82-91 | the same path through the earlier builder: its second join differs from the one query_builder.py:90 writes, which names the class, an end of neither join |

## Left out

- server/views.py, server/controller.py, server/database.py, server/postgres/postgres_db.py and `__main__.py` are not part of this model: web routes, configuration and database connections.
- pypeg2 itself: the library is replaced by a recursive-descent parser with the same ordered choice and whitespace skipping. A `SyntaxError` carries no position or message.
- Parser: the `.values` attribute the builders read is not defined in server/parser.py. The model gives every field a path, as the tests expect, and reads the builders' `isinstance(..., parser.FieldName)` tests as "is a field", although the grammar produces `Field` objects there.
- peewee: SQL generation, query execution and row fetching are left out. `fn.Sum` and the other aggregates are tagged projections, `_meta.fields` and `_meta.backrefs` are the catalog, and `Model.alias()` is a numbered alias.
- `_name`, `_type` and `_other_field`, which the builders read from the models, are not set in any file of the repository. The catalog supplies them as data.
- `QueryTreeNode.__repr__` is left out in both tree files; it only formats text.
- The `assert parent is None or isinstance(...)` checks in the node constructors hold by typing and are not modelled as errors.
- Results: rows and instances are abstract `Value`s, and `isinstance(child_object, peewee.Model)` and `peewee.SelectQuery` are the `Instance` and `Rows` constructors.
- Common: `lower()`, `upper()` and `capitalize()` are restricted to ASCII, and the two regular expressions are modelled as the two passes they make, not as a general regex engine.
- ModelRegister.RegisterSchemaExample: checks the registry with two classes only, not with every class in server/models.py.
- Schema: the concrete catalog holds `User` and `Project` only. The n:m junctions `ProjectMembers` and `CommitRelationship` are covered by the general n:m lemmas (`QueryPlanFacts.NmStepAdds`, `LegacyPlanFacts.NmStepAdds`), not by a concrete catalog, to keep verification small.
- builder.py computes `selections` (server/query/builder.py:38-52) and never attaches them to the query (58-61). The model keeps this: a compiled query carries no selection list, while the earlier file's query does (server/query_builder.py:54).
- WHERE is never applied by either builder (`# TODO Where`). The model computes the where fields and proves that they never change the outcome.
- Parser.ParseIdentifier, Parser.ParseInteger, Parser.ParseString, Parser.ParseComparison and the other parse functions promise only progress in their own contracts. What they accept is stated by the lemmas in `ParserTokens`, `ParserGrammar` and `ParserQuery`.
- QueryBuilder.ForeignKeyStep: joins a new n:1 child on the foreign key of the node's own model or alias, not on the class's field as server/query/builder.py:95-101 does; the two agree exactly when the node is bound to the class (`QueryPlanFacts.ForeignKeyStepAsWritten`). `JoinsLocal` in the plan invariant, `CompileParsed` and `Compile` describe the corrected joins.
- LegacyQueryBuilder.ForeignKeyStep: the same correction of server/query_builder.py:90 (`LegacyPlanFacts.ForeignKeyStepAsWritten`); `BuildParsed` and `Build` describe the corrected joins.
- QueryBuilder.QueryBuilder.ForeignKeyBranch: ends in the corrected n:1 join of `QueryBuilder.ForeignKeyStep`, not in the class-bound one of server/query/builder.py:101.
- QueryBuilder.QueryBuilder.StepForeignKey: the same corrected join.
- QueryPlanFacts.ForeignKeyStepAdds: states the corrected join; `QueryPlanFacts.ForeignKeyStepAsWritten` states when it is the source's.
- LegacyQueryBuilder.LegacyQueryBuilder.StepForeignKey: ends in the corrected n:1 join of `LegacyQueryBuilder.ForeignKeyStep`, not in the class-bound one of server/query_builder.py:90.
- LegacyQueryBuilder.LegacyQueryBuilder.RelationBranch: its n:1 branch ends in the same corrected join.
- LegacyPlanFacts.ForeignKeyStepAdds: states the corrected join; `LegacyPlanFacts.ForeignKeyStepAsWritten` states when it is the source's.
- Schema.ForkedFromTwice: proves the model's corrected joins and that the source's second join differs; the source's own plan is not built.
- QueryBuilder.Resolve, QueryBuilder.FieldStep, QueryBuilder.ForeignKeyStep, QueryBuilder.BackrefStep and QueryBuilder.NmStep promise only the plan invariant in their own contracts. What they add and return is stated by the lemmas `QueryPlanFacts.ResolveRecords`, `QueryPlanFacts.ResolveRejects` (the two errors), `QueryPlanFacts.ForeignKeyStepAdds`, `QueryPlanFacts.BackrefStepAdds`, `QueryPlanFacts.NmStepAdds`, `QueryPlanFacts.RelationStepReuses` and `QueryPlanFacts.ResolveIdempotent`. The legacy functions follow the same pattern.

## Findings

| source | as written | input that shows it | evidently intended | confidence | as-written member | corrected member |
|---|---|---|---|---|---|---|
| server/parser.py:126-127 | `Field` is `[(ModelName, '.', FieldName), FieldName]`: one or two segments | `parse('abc.def.ghi', Field)`: the first alternative stops after `abc.def`, `.ghi` is left and the parse fails | a field is a dotted path of any length, whose `.values` the builders read (server/query/builder.py:25); tests/test_parser.py:39-47 expect such paths of `FieldName` | not executed | ParserGrammar.FieldAsWrittenRejectsThreeSegments | ParserGrammar.ThreeSegmentPath |
| server/query/builder.py:95-101 | the n:1 condition takes the foreign key from `node.model._meta.fields`, which belongs to the class, even when the node is bound to an alias | `MODEL: project SELECT: (forked_from.forked_from.name)`: the second join ties the second alias to the root row's `forked_from` instead of the first alias's | the foreign key of the node's own model or alias equals the target's primary key | not executed | QueryBuilder.ForeignKeyConditionAsWrittenFromAlias | QueryBuilder.ForeignKeyCondition |
| server/query_builder.py:90 | the same n:1 condition in the earlier builder: the foreign key comes from `node.model._meta.fields`, the class's, even when the node is bound to an alias | `MODEL: project SELECT: (forked_from.forked_from.name)`: the second join names `Project.forked_from`, not the first alias's | the foreign key of the node's own model or alias equals the target's primary key | not executed | Schema.LegacyForkedFromTwice | LegacyPlanFacts.ForeignKeyStepAdds |
