/** The query planner of server/query/builder.py.

    `QueryBuilder.__call__` parses a CQL query, starts a query tree at the
    queried model and resolves every selected, grouped and ordered field
    path against the tree with `_add_to_node`, which walks the path one
    segment at a time, reuses the nodes it finds, creates and joins the ones
    it does not, and tags what it passes with the clause it serves.

    The specification is a pure function over a `Plan`, the state the
    builder changes: the tree's node and field-node records, `used_models`,
    the joins of the query and the number of aliases made. The `QueryBuilder`
    class at the end does the same work in place and is proved to end in the
    state the function computes. */
module QueryBuilder {
  import opened Wrappers
  import opened ModelRegister
  import opened QueryTree
  import opened Peewee
  import Parser

  /** `QueryCommand`: the clause a node or field serves. */
  datatype QueryCommand = Select | OrderBy | GroupBy | Where

  type PlanNode = Node<ModelRef, QueryCommand>
  type PlanField = FieldNode<FieldRef, QueryCommand>

  /** What the builder changes while it resolves paths. */
  datatype Plan = Plan(
    nodes: seq<PlanNode>,
    fieldNodes: seq<PlanField>,
    usedModels: seq<string>,
    joins: seq<Join>,
    aliases: nat)

  predicate NodesInCatalog(cat: Catalog, nodes: seq<PlanNode>)
  {
    forall j :: 0 <= j < |nodes| ==> nodes[j].model.model in cat
  }

  predicate CommandsDistinct(nodes: seq<PlanNode>, fieldNodes: seq<PlanField>)
  {
    && (forall j :: 0 <= j < |nodes| ==> Distinct(nodes[j].commands))
    && (forall f :: 0 <= f < |fieldNodes| ==> Distinct(fieldNodes[f].commands))
  }

  predicate JoinsLocal(joins: seq<Join>)
  {
    forall k :: 0 <= k < |joins| ==> JoinIsLocal(joins[k])
  }

  /** The invariant the builder keeps: a well-formed tree over models of the
      catalog, no two children of a node with the same name, every model in
      `used_models` at most once, no command twice in one list, and join
      conditions that speak only of the models they join. */
  predicate PlanOk(cat: Catalog, p: Plan)
  {
    && WellFormed(p.nodes, p.fieldNodes)
    && ChildNamesUnique(p.nodes)
    && NodesInCatalog(cat, p.nodes)
    && Distinct(p.usedModels)
    && CommandsDistinct(p.nodes, p.fieldNodes)
    && JoinsLocal(p.joins)
  }

  // -----------------------------------------------------------------------
  // One segment

  /** The node or field node a segment leads to, and the plan after
      reaching it. */
  datatype Step = Step(plan: Plan, node: nat)

  /** The n:1 join condition: the node's foreign key, bound to the node's
      own model or alias, equals the target's primary key. */
  function ForeignKeyCondition(from: ModelRef, fk: string, to: ModelRef, pk: string): (on: JoinOn)
    ensures JoinIsLocal(Join(from, to, on))
  {
    KeyEquals(FieldRef(from, fk), FieldRef(to, pk))
  }

  /** The n:1 join condition as builder.py:95-101 writes it: the foreign key
      is taken from `node.model._meta.fields`, which holds the fields of the
      class, not of the alias the node may stand for. */
  function ForeignKeyConditionAsWritten(from: ModelRef, fk: string, to: ModelRef, pk: string): (on: JoinOn)
    ensures from.Canonical? ==> on == ForeignKeyCondition(from, fk, to, pk)
  {
    KeyEquals(FieldRef(Canonical(from.model), fk), FieldRef(to, pk))
  }

  /** From an aliased node the written condition names a model that is not
      part of the join: the class instead of its alias. */
  lemma ForeignKeyConditionAsWrittenFromAlias(from: ModelRef, fk: string, to: ModelRef, pk: string)
    requires from.Aliased? && to != Canonical(from.model)
    ensures !JoinIsLocal(Join(from, to, ForeignKeyConditionAsWritten(from, fk, to, pk)))
  {
  }

  /** The two conditions agree exactly when the node is bound to the class
      itself. */
  lemma ForeignKeyConditionAgrees(from: ModelRef, fk: string, to: ModelRef, pk: string)
    ensures ForeignKeyConditionAsWritten(from, fk, to, pk) == ForeignKeyCondition(from, fk, to, pk) <==> from.Canonical?
  {
    if from.Aliased? {
      assert FieldRef(Canonical(from.model), fk) != FieldRef(from, fk);
    }
  }

  /** `node.add_child(name, model, shadow_name)` on the plan. */
  function AppendChild(p: Plan, i: nat, name: string, model: ModelRef, shadowName: Option<string>): (s: Step)
    requires i < |p.nodes|
    ensures s.node == |p.nodes| && |s.plan.nodes| == |p.nodes| + 1
    ensures s.plan.fieldNodes == p.fieldNodes && s.plan.usedModels == p.usedModels
    ensures s.plan.joins == p.joins && s.plan.aliases == p.aliases
  {
    var n := p.nodes[i];
    Step(p.(nodes := p.nodes[i := n.(children := n.children + [|p.nodes|])] + [FreshNode(name, model, shadowName, Some(i))]), |p.nodes|)
  }

  /** `add_child` is called only after `get_child` found no child of that
      name, and then keeps the invariant. */
  lemma AppendChildOk(cat: Catalog, p: Plan, i: nat, name: string, model: ModelRef, shadowName: Option<string>)
    requires PlanOk(cat, p) && i < |p.nodes| && model.model in cat
    requires ChildNamed(p.nodes, i, name).None?
    ensures PlanOk(cat, AppendChild(p, i, name, model, shadowName).plan)
  {
    ChildAddedShape(p.nodes, p.fieldNodes, i, name, model, shadowName);
    ChildAddedNames(p.nodes, p.fieldNodes, i, name, model, shadowName);
    var q := AppendChild(p, i, name, model, shadowName).plan;
    assert forall j :: 0 <= j < |q.nodes| ==> q.nodes[j].commands == if j < |p.nodes| then p.nodes[j].commands else [];
  }

  /** `node.add_field(name, field)` on the plan. */
  function AppendField(p: Plan, i: nat, name: string, field: FieldRef): (s: Step)
    requires i < |p.nodes|
    ensures s.node == |p.fieldNodes| && |s.plan.fieldNodes| == |p.fieldNodes| + 1
    ensures |s.plan.nodes| == |p.nodes| && s.plan.usedModels == p.usedModels
    ensures s.plan.joins == p.joins && s.plan.aliases == p.aliases
  {
    var n := p.nodes[i];
    Step(p.(nodes := p.nodes[i := n.(fields := n.fields + [|p.fieldNodes|])],
            fieldNodes := p.fieldNodes + [FieldNode(name, field, i, [])]), |p.fieldNodes|)
  }

  lemma AppendFieldOk(cat: Catalog, p: Plan, i: nat, name: string, field: FieldRef)
    requires PlanOk(cat, p) && i < |p.nodes|
    ensures PlanOk(cat, AppendField(p, i, name, field).plan)
  {
    FieldAddedShape(p.nodes, p.fieldNodes, i, name, field);
    var q := AppendField(p, i, name, field).plan;
    assert forall j :: 0 <= j < |q.nodes| ==> q.nodes[j].commands == p.nodes[j].commands;
    assert forall j :: 0 <= j < |q.nodes| ==> q.nodes[j].name == p.nodes[j].name && q.nodes[j].children == p.nodes[j].children;
    SameChildNames(p.nodes, q.nodes);
  }

  /** `if query_command not in node.commands: node.commands.append(...)`. */
  function TagNode(p: Plan, c: nat, cmd: QueryCommand): (q: Plan)
    requires c < |p.nodes|
    ensures |q.nodes| == |p.nodes| && cmd in q.nodes[c].commands
    ensures q.fieldNodes == p.fieldNodes && q.usedModels == p.usedModels
    ensures q.joins == p.joins && q.aliases == p.aliases
  {
    if cmd in p.nodes[c].commands then p
    else p.(nodes := p.nodes[c := p.nodes[c].(commands := p.nodes[c].commands + [cmd])])
  }

  lemma TagNodeOk(cat: Catalog, p: Plan, c: nat, cmd: QueryCommand)
    requires PlanOk(cat, p) && c < |p.nodes|
    ensures PlanOk(cat, TagNode(p, c, cmd))
  {
    if cmd !in p.nodes[c].commands {
      CommandsSetShape(p.nodes, p.fieldNodes, c, p.nodes[c].commands + [cmd]);
      var q := TagNode(p, c, cmd);
      assert forall j :: 0 <= j < |q.nodes| ==> q.nodes[j].name == p.nodes[j].name && q.nodes[j].children == p.nodes[j].children;
      SameChildNames(p.nodes, q.nodes);
    }
  }

  /** The same for a field node. */
  function TagField(p: Plan, f: nat, cmd: QueryCommand): (q: Plan)
    requires f < |p.fieldNodes|
    ensures |q.fieldNodes| == |p.fieldNodes| && cmd in q.fieldNodes[f].commands
    ensures q.nodes == p.nodes && q.usedModels == p.usedModels
    ensures q.joins == p.joins && q.aliases == p.aliases
  {
    if cmd in p.fieldNodes[f].commands then p
    else p.(fieldNodes := p.fieldNodes[f := p.fieldNodes[f].(commands := p.fieldNodes[f].commands + [cmd])])
  }

  lemma TagFieldOk(cat: Catalog, p: Plan, f: nat, cmd: QueryCommand)
    requires PlanOk(cat, p) && f < |p.fieldNodes|
    ensures PlanOk(cat, TagField(p, f, cmd))
  {
  }

  /** A plain field: the field node of that name, created on first use and
      bound to the node's model. */
  function FieldStep(cat: Catalog, p: Plan, i: nat, head: string): (s: Step)
    requires PlanOk(cat, p) && i < |p.nodes|
    ensures PlanOk(cat, s.plan) && s.node < |s.plan.fieldNodes|
  {
    match FieldNamed(p.nodes, p.fieldNodes, i, head)
    case Some(f) => Step(p, f)
    case None =>
      AppendFieldOk(cat, p, i, head, FieldRef(p.nodes[i].model, head));
      AppendField(p, i, head, FieldRef(p.nodes[i].model, head))
  }

  /** An n:1 foreign key: the child of that name, or a new child for the
      target model joined on foreign key = primary key. */
  function ForeignKeyStep(cat: Catalog, p: Plan, i: nat, head: string, target: string): (s: Step)
    requires ValidCatalog(cat) && PlanOk(cat, p) && i < |p.nodes| && target in cat
    ensures PlanOk(cat, s.plan) && s.node < |s.plan.nodes|
  {
    match ChildNamed(p.nodes, i, head)
    case Some(c) => Step(p, c)
    case None =>
      var from := p.nodes[i].model;
      var j := JoinModel(p.usedModels, p.aliases, target);
      var join := Join(from, j.ref, ForeignKeyCondition(from, head, j.ref, cat[target].primaryKey));
      var p1 := p.(usedModels := j.usedModels, aliases := j.aliases, joins := p.joins + [join]);
      AppendChildOk(cat, p1, i, head, j.ref, None);
      AppendChild(p1, i, head, j.ref, None)
  }

  /** A 1:n backref from an entity model: the child of that name, or a new
      child for the model declaring the foreign key, joined on it. */
  function BackrefStep(cat: Catalog, p: Plan, i: nat, head: string, b: Backref): (s: Step)
    requires ValidCatalog(cat) && PlanOk(cat, p) && i < |p.nodes| && b.source in cat
    ensures PlanOk(cat, s.plan) && s.node < |s.plan.nodes|
  {
    match ChildNamed(p.nodes, i, head)
    case Some(c) => Step(p, c)
    case None =>
      var j := JoinModel(p.usedModels, p.aliases, b.source);
      var join := Join(p.nodes[i].model, j.ref, ForeignKeyOn(FieldRef(j.ref, b.fkField)));
      var p1 := p.(usedModels := j.usedModels, aliases := j.aliases, joins := p.joins + [join]);
      AppendChildOk(cat, p1, i, head, j.ref, None);
      AppendChild(p1, i, head, j.ref, None)
  }

  /** The junction's other foreign key and the model it points at. */
  function FarSide(cat: Catalog, b: Backref): (r: (string, string))
    requires ValidCatalog(cat) && b.source in cat && cat[b.source].kind == NmRelation
    requires b.fkField in cat[b.source].otherField
    requires cat[b.source].otherField[b.fkField] in cat[b.source].fields
    requires cat[b.source].fields[cat[b.source].otherField[b.fkField]].ForeignKey?
    ensures r.0 in cat[b.source].fields && cat[b.source].fields[r.0] == ForeignKey(r.1) && r.1 in cat
  {
    var f2 := cat[b.source].otherField[b.fkField];
    assert ModelOk(cat, b.source);
    (f2, cat[b.source].fields[f2].target)
  }

  /** An n:m backref through a junction: the child of that name, or a new
      child for the far model, reached by two joins (node to junction on the
      backref's foreign key, junction to far model on the other foreign key)
      and carrying the other foreign key's name as its shadow name. */
  function NmStep(cat: Catalog, p: Plan, i: nat, head: string, b: Backref): (s: Step)
    requires ValidCatalog(cat) && PlanOk(cat, p) && i < |p.nodes|
    requires b.source in cat && cat[b.source].kind == NmRelation
    requires b.fkField in cat[b.source].otherField
    requires cat[b.source].otherField[b.fkField] in cat[b.source].fields
    requires cat[b.source].fields[cat[b.source].otherField[b.fkField]].ForeignKey?
    ensures PlanOk(cat, s.plan) && s.node < |s.plan.nodes|
  {
    match ChildNamed(p.nodes, i, head)
    case Some(c) => Step(p, c)
    case None =>
      var (f2, far) := FarSide(cat, b);
      var jr := JoinModel(p.usedModels, p.aliases, b.source);
      var jm := JoinModel(jr.usedModels, jr.aliases, far);
      var join1 := Join(p.nodes[i].model, jr.ref, ForeignKeyOn(FieldRef(jr.ref, b.fkField)));
      var join2 := Join(jr.ref, jm.ref, KeyEquals(FieldRef(jr.ref, f2), FieldRef(jm.ref, cat[far].primaryKey)));
      var p1 := p.(usedModels := jm.usedModels, aliases := jm.aliases, joins := p.joins + [join1, join2]);
      AppendChildOk(cat, p1, i, head, jm.ref, Some(f2));
      AppendChild(p1, i, head, jm.ref, Some(f2))
  }

  // -----------------------------------------------------------------------
  // A whole path

  /** The plan after a call and what the call returned or raised. */
  datatype Resolved<T> = Resolved(plan: Plan, result: Result<T, BuildError>)

  /** How the first segment of a path is read at a node, in the order
      `_add_to_node` tries the cases. */
  datatype SegmentKind = PlainSegment | ForeignKeySegment(target: string) | BackrefSegment(b: Backref)
                       | NmSegment(b: Backref) | UnknownSegment

  function KindOf(cat: Catalog, m: string, head: string): (k: SegmentKind)
    requires ValidCatalog(cat) && m in cat
    ensures k.ForeignKeySegment? ==> k.target in cat
    ensures k.BackrefSegment? ==> k.b.source in cat
    ensures k.NmSegment? ==> && k.b.source in cat && cat[k.b.source].kind == NmRelation
                             && k.b.fkField in cat[k.b.source].otherField
                             && cat[k.b.source].otherField[k.b.fkField] in cat[k.b.source].fields
                             && cat[k.b.source].fields[cat[k.b.source].otherField[k.b.fkField]].ForeignKey?
    ensures k.UnknownSegment? <==> head !in cat[m].fields && head !in cat[m].backrefs
    ensures k.PlainSegment? <==> head in cat[m].fields && cat[m].fields[head] == PlainField
    ensures head in cat[m].fields ==> k.PlainSegment? || k.ForeignKeySegment?
  {
    var info := cat[m];
    assert ModelOk(cat, m);
    if head in info.fields && info.fields[head] == PlainField then PlainSegment
    else if head in info.fields then ForeignKeySegment(info.fields[head].target)
    else if head in info.backrefs && cat[info.backrefs[head].source].kind == EntityModel then BackrefSegment(info.backrefs[head])
    else if head in info.backrefs then NmSegment(info.backrefs[head])
    else UnknownSegment
  }

  /** `_add_to_node(node, path, command)`. */
  function Resolve(cat: Catalog, p: Plan, i: nat, path: Parser.Path, cmd: QueryCommand): (r: Resolved<Selected>)
    requires ValidCatalog(cat) && PlanOk(cat, p) && i < |p.nodes|
    ensures PlanOk(cat, r.plan)
    decreases |path|, 1
  {
    if path == [] then Resolved(p, Err(EmptyPath))
    else
      var head := path[0];
      var m := p.nodes[i].model.model;
      match KindOf(cat, m, head)
      case PlainSegment =>
        if |path| > 1 then Resolved(p, Err(NoChildren(head, cat[m].name)))
        else
          var s := FieldStep(cat, p, i, head);
          TagFieldOk(cat, s.plan, s.node, cmd);
          var q := TagField(s.plan, s.node, cmd);
          Resolved(q, Ok(FieldSelected(q.fieldNodes[s.node].field)))
      case ForeignKeySegment(target) => Descend(cat, ForeignKeyStep(cat, p, i, head, target), path, cmd)
      case BackrefSegment(b) => Descend(cat, BackrefStep(cat, p, i, head, b), path, cmd)
      case NmSegment(b) => Descend(cat, NmStep(cat, p, i, head, b), path, cmd)
      case UnknownSegment => Resolved(p, Err(NoSuchField(head, cat[m].name)))
  }

  /** After a relation segment: tag the child, then hand back its model or
      go on with the rest of the path. */
  function Descend(cat: Catalog, s: Step, path: Parser.Path, cmd: QueryCommand): (r: Resolved<Selected>)
    requires ValidCatalog(cat) && PlanOk(cat, s.plan) && s.node < |s.plan.nodes| && path != []
    ensures PlanOk(cat, r.plan)
    decreases |path|, 0
  {
    TagNodeOk(cat, s.plan, s.node, cmd);
    var q := TagNode(s.plan, s.node, cmd);
    if |path| == 1 then Resolved(q, Ok(ModelSelected(q.nodes[s.node].model)))
    else Resolve(cat, q, s.node, path[1..], cmd)
  }

  /** `_add_to_node` over a list of paths from the root, left to right, as
      the clause loops of `__call__` run it: the first failure stops the
      list. */
  function ResolveAll(cat: Catalog, p: Plan, paths: seq<Parser.Path>, cmd: QueryCommand): (r: Resolved<seq<Selected>>)
    requires ValidCatalog(cat) && PlanOk(cat, p)
    ensures PlanOk(cat, r.plan)
    ensures r.result.Ok? ==> |r.result.value| == |paths|
    decreases |paths|
  {
    if paths == [] then Resolved(p, Ok([]))
    else
      var prior := ResolveAll(cat, p, paths[..|paths| - 1], cmd);
      if prior.result.Err? then prior
      else
        var last := Resolve(cat, prior.plan, 0, paths[|paths| - 1], cmd);
        match last.result
        case Err(e) => Resolved(last.plan, Err(e))
        case Ok(s) => Resolved(last.plan, Ok(prior.result.value + [s]))
  }

  // -----------------------------------------------------------------------
  // The fields of a where clause

  /** The comparisons of an expression, left to right. */
  function Comparisons(e: Parser.Expression): (cs: seq<Parser.Comparison>)
    ensures |cs| >= 1
  {
    match e
    case ComparisonExpr(c) => [c]
    case LogicalExpr(l, _, r) => Comparisons(l) + Comparisons(r)
  }

  /** The paths one comparison names: its field, then its second operand
      when that is a field with a non-empty path (`if second:` on a
      list). */
  function ComparisonFields(c: Parser.Comparison): (fs: seq<Parser.Path>)
    ensures 1 <= |fs| <= 2 && fs[0] == c.first
    ensures |fs| == 2 <==> c.second.FieldOperand? && c.second.path != []
    ensures |fs| == 2 ==> fs[1] == c.second.path
  {
    if c.second.FieldOperand? && c.second.path != [] then [c.first, c.second.path] else [c.first]
  }

  /** `_expression_fields(expression)`: the paths of a logical expression
      are those of its left operand followed by those of its right. */
  function ExpressionFields(e: Parser.Expression): (fs: seq<Parser.Path>)
    ensures |Comparisons(e)| <= |fs| <= 2 * |Comparisons(e)|
    ensures fs[0] == Comparisons(e)[0].first
  {
    match e
    case ComparisonExpr(c) => ComparisonFields(c)
    case LogicalExpr(l, _, r) => ExpressionFields(l) + ExpressionFields(r)
  }

  // -----------------------------------------------------------------------
  // The whole query

  /** An entry of `selection_fields`: a selected path and its aggregator. */
  datatype SelectionField = SelectionField(path: Parser.Path, aggregator: Option<Parser.Aggregator>)

  /** `selection_fields`: one entry per select item, in order. */
  function SelectionFields(items: seq<Parser.SelectItem>): (fs: seq<SelectionField>)
    ensures |fs| == |items|
    ensures forall k :: 0 <= k < |items| ==>
      fs[k].path == (if items[k].FieldItem? then items[k].path else items[k].field)
      && (fs[k].aggregator.Some? <==> items[k].AggregationItem?)
  {
    if items == [] then []
    else
      var f := match items[0]
        case FieldItem(path) => SelectionField(path, None)
        case AggregationItem(a, path) => SelectionField(path, Some(a));
      [f] + SelectionFields(items[1..])
  }

  function PathsOf(fs: seq<SelectionField>): (ps: seq<Parser.Path>)
    ensures |ps| == |fs| && forall k :: 0 <= k < |fs| ==> ps[k] == fs[k].path
  {
    if fs == [] then [] else [fs[0].path] + PathsOf(fs[1..])
  }

  /** The `selections` list: each resolved value as it is, or wrapped in
      its aggregate and aliased by the aggregate's lower-case name. */
  function Selections(fs: seq<SelectionField>, vs: seq<Selected>): (ps: seq<Projection>)
    requires |fs| == |vs|
    ensures |ps| == |fs|
    ensures forall k :: 0 <= k < |fs| ==> ps[k] == ProjectionOf(vs[k], fs[k].aggregator)
  {
    if fs == [] then [] else [ProjectionOf(vs[0], fs[0].aggregator)] + Selections(fs[1..], vs[1..])
  }

  /** `group_by_fields` and `order_by_fields`: a missing clause is an empty
      list. */
  function ClausePaths(clause: Option<seq<Parser.Path>>): (ps: seq<Parser.Path>)
    ensures clause.None? ==> ps == []
    ensures clause.Some? ==> ps == clause.value
  {
    if clause.None? then [] else clause.value
  }

  /** The state `__call__` leaves behind and what it returns or raises.
      `plan` and `query` are absent when it stopped before building a tree. */
  datatype Outcome = Outcome(plan: Option<Plan>, query: Option<PeeweeQuery>, result: Result<PeeweeQuery, BuildError>)

  /** The root plan for model `m`: a tree holding only the root, named
      after the model, and `m` in `used_models`. */
  function RootPlan(cat: Catalog, m: string, aliases: nat): (p: Plan)
    requires ValidCatalog(cat) && m in cat
    ensures PlanOk(cat, p)
    ensures |p.nodes| == 1 && p.nodes[0].name == cat[m].name && p.nodes[0].model == Canonical(m)
    ensures p.nodes[0].commands == [] && p.fieldNodes == [] && p.usedModels == [m] && p.joins == []
  {
    Plan([FreshNode(cat[m].name, Canonical(m), None, None)], [], [m], [], aliases)
  }

  /** `__call__` after parsing. */
  function CompileParsed(cat: Catalog, models: map<string, ModelClass>, aliases: nat, q: Parser.Query): (o: Outcome)
    requires ValidCatalog(cat) && RegistryInCatalog(cat, models)
    ensures o.plan.Some? <==> o.query.Some?
    ensures o.plan.Some? ==> PlanOk(cat, o.plan.value) && o.query.value.joins == o.plan.value.joins
  {
    if q.model.name !in models then Outcome(None, None, Err(UnknownModel(KeyError(q.model.name))))
    else
      var m := models[q.model.name].className;
      SelectStage(cat, SelectFrom(Canonical(m)), RootPlan(cat, m, aliases), q)
  }

  /** Where a clause loop fails: the state so far and its error. */
  function Stopped(base: PeeweeQuery, r: Resolved<seq<Selected>>): (o: Outcome)
    requires r.result.Err?
    ensures o.plan == Some(r.plan) && o.query == Some(base.(joins := r.plan.joins)) && o.result == Err(r.result.error)
  {
    Outcome(Some(r.plan), Some(base.(joins := r.plan.joins)), Err(r.result.error))
  }

  /** The selection loop, then the rest. */
  function SelectStage(cat: Catalog, base: PeeweeQuery, p: Plan, q: Parser.Query): (o: Outcome)
    requires ValidCatalog(cat) && PlanOk(cat, p)
    ensures o.plan.Some? && o.query.Some?
    ensures PlanOk(cat, o.plan.value) && o.query.value.joins == o.plan.value.joins
  {
    var sel := ResolveAll(cat, p, PathsOf(SelectionFields(q.select)), Select);
    if sel.result.Err? then Stopped(base, sel)
    else GroupByStage(cat, base, sel.plan, q)
  }

  /** The group-by loop, then the rest. */
  function GroupByStage(cat: Catalog, base: PeeweeQuery, p: Plan, q: Parser.Query): (o: Outcome)
    requires ValidCatalog(cat) && PlanOk(cat, p)
    ensures o.plan.Some? && o.query.Some?
    ensures PlanOk(cat, o.plan.value) && o.query.value.joins == o.plan.value.joins
  {
    var gb := ResolveAll(cat, p, ClausePaths(q.groupBy), GroupBy);
    if gb.result.Err? then Stopped(base, gb)
    else OrderByStage(cat, base, gb.plan, gb.result.value, q)
  }

  /** The order-by loop, then `.group_by(...).order_by(...).limit(1000)`. */
  function OrderByStage(cat: Catalog, base: PeeweeQuery, p: Plan, groupBy: seq<Selected>, q: Parser.Query): (o: Outcome)
    requires ValidCatalog(cat) && PlanOk(cat, p)
    ensures o.plan.Some? && o.query.Some?
    ensures PlanOk(cat, o.plan.value) && o.query.value.joins == o.plan.value.joins
  {
    var ob := ResolveAll(cat, p, ClausePaths(q.orderBy), OrderBy);
    if ob.result.Err? then Stopped(base, ob)
    else
      var final := base.(joins := ob.plan.joins, groupBy := groupBy, orderBy := ob.result.value, limit := Some(1000));
      Outcome(Some(ob.plan), Some(final), Ok(final))
  }

  /** `__call__(cql_query)`. */
  function Compile(cat: Catalog, models: map<string, ModelClass>, aliases: nat, text: string): (o: Outcome)
    requires ValidCatalog(cat) && RegistryInCatalog(cat, models)
    ensures o.plan.Some? <==> o.query.Some?
    ensures o.plan.Some? ==> PlanOk(cat, o.plan.value) && o.query.value.joins == o.plan.value.joins
  {
    match Parser.ParseQueryText(text)
    case Err(_) => Outcome(None, None, Err(SyntaxError))
    case Ok(q) => CompileParsed(cat, models, aliases, q)
  }

  /** One more path: the list up to `paths[k]` is the list before it
      followed by `paths[k]` resolved from the root. */
  lemma ResolveAllStep(cat: Catalog, p: Plan, paths: seq<Parser.Path>, cmd: QueryCommand, k: nat)
    requires ValidCatalog(cat) && PlanOk(cat, p) && k < |paths|
    requires ResolveAll(cat, p, paths[..k], cmd).result.Ok?
    ensures var prior := ResolveAll(cat, p, paths[..k], cmd);
      var last := Resolve(cat, prior.plan, 0, paths[k], cmd);
      ResolveAll(cat, p, paths[..k + 1], cmd)
        == if last.result.Err? then Resolved(last.plan, Err(last.result.error))
           else Resolved(last.plan, Ok(prior.result.value + [last.result.value]))
  {
    assert paths[..k + 1][..k] == paths[..k];
  }

  /** Once a prefix of the list has failed, the whole list fails the same
      way. */
  lemma {:induction false} ResolveAllStops(cat: Catalog, p: Plan, paths: seq<Parser.Path>, cmd: QueryCommand, n: nat)
    requires ValidCatalog(cat) && PlanOk(cat, p) && n <= |paths|
    requires ResolveAll(cat, p, paths[..n], cmd).result.Err?
    ensures ResolveAll(cat, p, paths, cmd) == ResolveAll(cat, p, paths[..n], cmd)
    decreases |paths| - n
  {
    if n < |paths| {
      var ps := paths[..n + 1];
      assert ps[..|ps| - 1] == paths[..n];
      ResolveAllStops(cat, p, paths, cmd, n + 1);
    } else {
      assert paths[..n] == paths;
    }
  }

  // -----------------------------------------------------------------------
  // The builder object

  class QueryBuilder {
    const catalog: Catalog
    const mr: Register
    var usedModels: seq<string>
    var queryTree: Tree?<ModelRef, FieldRef, QueryCommand>
    var query: Option<PeeweeQuery>
    /** How many aliases have been made: the identity of the next. */
    var aliases: nat

    /** `QueryBuilder(mr)`: nothing planned yet. */
    constructor (catalog: Catalog, mr: Register)
      ensures this.catalog == catalog && this.mr == mr
      ensures usedModels == [] && queryTree == null && query == None && aliases == 0
    {
      this.catalog := catalog;
      this.mr := mr;
      usedModels := [];
      queryTree := null;
      query := None;
      aliases := 0;
    }

    /** The builder's state as a plan. */
    function Snapshot(): Plan
      reads this, queryTree
      requires queryTree != null && query.Some?
    {
      Plan(queryTree.nodes, queryTree.fieldNodes, usedModels, query.value.joins, aliases)
    }

    ghost predicate Planning()
      reads this, queryTree
    {
      queryTree != null && query.Some? && ValidCatalog(catalog) && PlanOk(catalog, Snapshot())
    }

    /** The `if join_model not in self.used_models` idiom: record the model,
        or make an alias of it. */
    method JoinIdentity(model: string) returns (ref: ModelRef)
      modifies this
      ensures var j := JoinModel(old(usedModels), old(aliases), model);
        ref == j.ref && usedModels == j.usedModels && aliases == j.aliases
      ensures queryTree == old(queryTree) && query == old(query)
    {
      if model !in usedModels {
        usedModels := usedModels + [model];
        ref := Canonical(model);
      } else {
        ref := Aliased(model, aliases);
        aliases := aliases + 1;
      }
    }

    /** `self.query = self.query.join_from(...)`. */
    method AddJoin(j: Join)
      requires query.Some?
      modifies this
      ensures query == Some(old(query.value).(joins := old(query.value.joins) + [j]))
      ensures queryTree == old(queryTree) && usedModels == old(usedModels) && aliases == old(aliases)
    {
      query := Some(query.value.(joins := query.value.joins + [j]));
    }

    /** The plain-field branch up to the tagging. */
    method StepField(i: nat, head: string) returns (f: nat)
      requires Planning() && i < |queryTree.nodes|
      modifies queryTree
      ensures var s := FieldStep(catalog, old(Snapshot()), i, head); Snapshot() == s.plan && f == s.node
    {
      var found := queryTree.GetField(i, head);
      if found.None? {
        f := queryTree.AddField(i, head, FieldRef(queryTree.nodes[i].model, head));
      } else {
        f := found.value;
      }
    }

    /** The n:1 branch up to the tagging. */
    method StepForeignKey(i: nat, head: string, target: string) returns (c: nat)
      requires Planning() && i < |queryTree.nodes| && target in catalog
      modifies this, queryTree
      ensures queryTree == old(queryTree) && query.Some? && query.value == old(query.value).(joins := query.value.joins)
      ensures var s := ForeignKeyStep(catalog, old(Snapshot()), i, head, target); Snapshot() == s.plan && c == s.node
    {
      var found := queryTree.GetChild(i, head);
      if found.Some? {
        return found.value;
      }
      var from := queryTree.nodes[i].model;
      var ref := JoinIdentity(target);
      AddJoin(Join(from, ref, ForeignKeyCondition(from, head, ref, catalog[target].primaryKey)));
      c := queryTree.AddChild(i, head, ref, None);
    }

    /** The 1:n branch up to the tagging. */
    method StepBackref(i: nat, head: string, b: Backref) returns (c: nat)
      requires Planning() && i < |queryTree.nodes| && b.source in catalog
      modifies this, queryTree
      ensures queryTree == old(queryTree) && query.Some? && query.value == old(query.value).(joins := query.value.joins)
      ensures var s := BackrefStep(catalog, old(Snapshot()), i, head, b); Snapshot() == s.plan && c == s.node
    {
      var found := queryTree.GetChild(i, head);
      if found.Some? {
        return found.value;
      }
      var from := queryTree.nodes[i].model;
      var ref := JoinIdentity(b.source);
      AddJoin(Join(from, ref, ForeignKeyOn(FieldRef(ref, b.fkField))));
      c := queryTree.AddChild(i, head, ref, None);
    }

    /** The n:m branch up to the tagging. */
    method StepNm(i: nat, head: string, b: Backref) returns (c: nat)
      requires Planning() && i < |queryTree.nodes|
      requires b.source in catalog && catalog[b.source].kind == NmRelation
      requires b.fkField in catalog[b.source].otherField
      requires catalog[b.source].otherField[b.fkField] in catalog[b.source].fields
      requires catalog[b.source].fields[catalog[b.source].otherField[b.fkField]].ForeignKey?
      modifies this, queryTree
      ensures queryTree == old(queryTree) && query.Some? && query.value == old(query.value).(joins := query.value.joins)
      ensures var s := NmStep(catalog, old(Snapshot()), i, head, b); Snapshot() == s.plan && c == s.node
    {
      var found := queryTree.GetChild(i, head);
      if found.Some? {
        return found.value;
      }
      ghost var p := Snapshot();
      var from := queryTree.nodes[i].model;
      var side := FarSide(catalog, b);
      var otherField, joinModel := side.0, side.1;
      var relation := JoinIdentity(b.source);
      var far := JoinIdentity(joinModel);
      var join1 := Join(from, relation, ForeignKeyOn(FieldRef(relation, b.fkField)));
      var join2 := Join(relation, far, KeyEquals(FieldRef(relation, otherField), FieldRef(far, catalog[joinModel].primaryKey)));
      AddJoin(join1);
      AddJoin(join2);
      assert p.joins + [join1] + [join2] == p.joins + [join1, join2];
      assert Snapshot() == p.(usedModels := usedModels, aliases := aliases, joins := p.joins + [join1, join2]);
      c := queryTree.AddChild(i, head, far, Some(otherField));
    }

    /** `_add_to_node(node, field_arr, query_command)`. */
    method AddToNode(i: nat, path: Parser.Path, cmd: QueryCommand) returns (r: Result<Selected, BuildError>)
      requires Planning() && i < |queryTree.nodes|
      modifies this, queryTree
      ensures queryTree == old(queryTree) && query.Some? && query.value == old(query.value).(joins := query.value.joins)
      ensures Resolved(Snapshot(), r) == Resolve(catalog, old(Snapshot()), i, path, cmd)
      decreases |path|, 3
    {
      if path == [] {
        return Err(EmptyPath);
      }
      var head := path[0];
      var m := queryTree.nodes[i].model.model;
      match KindOf(catalog, m, head)
      case PlainSegment =>
        if |path| > 1 {
          return Err(NoChildren(head, catalog[m].name));
        }
        r := AddToField(i, path, cmd);
      case ForeignKeySegment(target) =>
        r := ForeignKeyBranch(i, path, cmd, target);
      case BackrefSegment(b) =>
        r := BackrefBranch(i, path, cmd, b);
      case NmSegment(b) =>
        r := NmBranch(i, path, cmd, b);
      case UnknownSegment =>
        return Err(NoSuchField(head, catalog[m].name));
    }

    /** The n:1 branch. */
    method ForeignKeyBranch(i: nat, path: Parser.Path, cmd: QueryCommand, target: string) returns (r: Result<Selected, BuildError>)
      requires Planning() && i < |queryTree.nodes| && path != [] && target in catalog
      requires KindOf(catalog, queryTree.nodes[i].model.model, path[0]) == ForeignKeySegment(target)
      modifies this, queryTree
      ensures queryTree == old(queryTree) && query.Some? && query.value == old(query.value).(joins := query.value.joins)
      ensures Resolved(Snapshot(), r) == Resolve(catalog, old(Snapshot()), i, path, cmd)
      decreases |path|, 2
    {
      var c := StepForeignKey(i, path[0], target);
      r := TagAndDescend(c, path, cmd);
    }

    /** The 1:n branch. */
    method BackrefBranch(i: nat, path: Parser.Path, cmd: QueryCommand, b: Backref) returns (r: Result<Selected, BuildError>)
      requires Planning() && i < |queryTree.nodes| && path != [] && b.source in catalog
      requires KindOf(catalog, queryTree.nodes[i].model.model, path[0]) == BackrefSegment(b)
      modifies this, queryTree
      ensures queryTree == old(queryTree) && query.Some? && query.value == old(query.value).(joins := query.value.joins)
      ensures Resolved(Snapshot(), r) == Resolve(catalog, old(Snapshot()), i, path, cmd)
      decreases |path|, 2
    {
      var c := StepBackref(i, path[0], b);
      r := TagAndDescend(c, path, cmd);
    }

    /** The n:m branch. */
    method NmBranch(i: nat, path: Parser.Path, cmd: QueryCommand, b: Backref) returns (r: Result<Selected, BuildError>)
      requires Planning() && i < |queryTree.nodes| && path != []
      requires b.source in catalog && catalog[b.source].kind == NmRelation
      requires b.fkField in catalog[b.source].otherField
      requires catalog[b.source].otherField[b.fkField] in catalog[b.source].fields
      requires catalog[b.source].fields[catalog[b.source].otherField[b.fkField]].ForeignKey?
      requires KindOf(catalog, queryTree.nodes[i].model.model, path[0]) == NmSegment(b)
      modifies this, queryTree
      ensures queryTree == old(queryTree) && query.Some? && query.value == old(query.value).(joins := query.value.joins)
      ensures Resolved(Snapshot(), r) == Resolve(catalog, old(Snapshot()), i, path, cmd)
      decreases |path|, 2
    {
      var c := StepNm(i, path[0], b);
      r := TagAndDescend(c, path, cmd);
    }

    /** The plain-field branch: the field node, tagged, and its field. */
    method AddToField(i: nat, path: Parser.Path, cmd: QueryCommand) returns (r: Result<Selected, BuildError>)
      requires Planning() && i < |queryTree.nodes| && |path| == 1
      requires KindOf(catalog, queryTree.nodes[i].model.model, path[0]) == PlainSegment
      modifies queryTree
      ensures Resolved(Snapshot(), r) == Resolve(catalog, old(Snapshot()), i, path, cmd)
    {
      var f := StepField(i, path[0]);
      if cmd !in queryTree.fieldNodes[f].commands {
        queryTree.AddFieldCommand(f, cmd);
      }
      return Ok(FieldSelected(queryTree.fieldNodes[f].field));
    }

    /** The tail every relation branch shares: tag the child, then return
        its model or resolve the rest of the path from it. */
    method TagAndDescend(c: nat, path: Parser.Path, cmd: QueryCommand) returns (r: Result<Selected, BuildError>)
      requires Planning() && c < |queryTree.nodes| && path != []
      modifies this, queryTree
      ensures queryTree == old(queryTree) && query.Some? && query.value == old(query.value).(joins := query.value.joins)
      ensures Resolved(Snapshot(), r) == Descend(catalog, Step(old(Snapshot()), c), path, cmd)
      decreases |path|, 0
    {
      ghost var p := Snapshot();
      if cmd !in queryTree.nodes[c].commands {
        queryTree.AddNodeCommand(c, cmd);
      }
      assert Snapshot() == TagNode(p, c, cmd);
      TagNodeOk(catalog, p, c, cmd);
      if |path| == 1 {
        return Ok(ModelSelected(queryTree.nodes[c].model));
      }
      r := AddToNode(c, path[1..], cmd);
    }

    /** One clause loop of `__call__`: `_add_to_node(self.query_tree.root,
        field_arr, command)` for every path in order, stopping at the first
        error. */
    method ResolvePaths(paths: seq<Parser.Path>, cmd: QueryCommand) returns (r: Result<seq<Selected>, BuildError>)
      requires Planning()
      modifies this, queryTree
      ensures queryTree == old(queryTree) && query.Some? && query.value == old(query.value).(joins := query.value.joins)
      ensures Resolved(Snapshot(), r) == ResolveAll(catalog, old(Snapshot()), paths, cmd)
    {
      ghost var p := Snapshot();
      var selected: seq<Selected> := [];
      var k := 0;
      while k < |paths|
        invariant k <= |paths|
        invariant Planning() && queryTree == old(queryTree)
        invariant query.Some? && query.value == old(query.value).(joins := query.value.joins)
        invariant Resolved(Snapshot(), Ok(selected)) == ResolveAll(catalog, p, paths[..k], cmd)
      {
        ResolveAllStep(catalog, p, paths, cmd, k);
        var s := AddToNode(0, paths[k], cmd);
        if s.Err? {
          ResolveAllStops(catalog, p, paths, cmd, k + 1);
          return Err(s.error);
        }
        selected := selected + [s.value];
        k := k + 1;
      }
      assert paths[..k] == paths;
      return Ok(selected);
    }

    /** The builder is in the state `o` describes and returned what it
        returns. */
    ghost predicate Reached(o: Outcome, r: Result<PeeweeQuery, BuildError>)
      reads this, queryTree
    {
      queryTree != null && query.Some? && o.plan.Some? && query == o.query && Snapshot() == o.plan.value && r == o.result
    }

    /** The selection loop of `__call__` and what follows it. */
    method SelectClause(base: PeeweeQuery, q: Parser.Query) returns (r: Result<PeeweeQuery, BuildError>)
      requires Planning() && query == Some(base)
      modifies this, queryTree
      ensures queryTree == old(queryTree)
      ensures Reached(SelectStage(catalog, base, old(Snapshot()), q), r)
    {
      var sel := ResolvePaths(PathsOf(SelectionFields(q.select)), Select);
      if sel.Err? {
        return Err(sel.error);
      }
      r := GroupByClause(base, q);
    }

    /** The group-by loop of `__call__` and what follows it. */
    method GroupByClause(base: PeeweeQuery, q: Parser.Query) returns (r: Result<PeeweeQuery, BuildError>)
      requires Planning() && query.Some? && query.value == base.(joins := query.value.joins)
      modifies this, queryTree
      ensures queryTree == old(queryTree)
      ensures Reached(GroupByStage(catalog, base, old(Snapshot()), q), r)
    {
      var gb := ResolvePaths(ClausePaths(q.groupBy), GroupBy);
      if gb.Err? {
        return Err(gb.error);
      }
      r := OrderByClause(base, gb.value, q);
    }

    /** The order-by loop of `__call__` and the final query. */
    method OrderByClause(base: PeeweeQuery, groupBy: seq<Selected>, q: Parser.Query) returns (r: Result<PeeweeQuery, BuildError>)
      requires Planning() && query.Some? && query.value == base.(joins := query.value.joins)
      modifies this, queryTree
      ensures queryTree == old(queryTree)
      ensures Reached(OrderByStage(catalog, base, old(Snapshot()), groupBy, q), r)
    {
      var ob := ResolvePaths(ClausePaths(q.orderBy), OrderBy);
      if ob.Err? {
        return Err(ob.error);
      }
      query := Some(query.value.(groupBy := groupBy, orderBy := ob.value, limit := Some(1000)));
      return Ok(query.value);
    }

    /** `__call__` after parsing: the registry lookup, the root of the
        tree and the clause loops. */
    method CallParsed(q: Parser.Query) returns (r: Result<(PeeweeQuery, Tree<ModelRef, FieldRef, QueryCommand>), BuildError>)
      requires ValidCatalog(catalog) && RegistryInCatalog(catalog, mr.models) && usedModels == []
      modifies this
      ensures var o := CompileParsed(catalog, mr.models, old(aliases), q);
        && (o.plan.None? ==> && usedModels == [] && queryTree == old(queryTree)
                             && query == old(query) && aliases == old(aliases))
        && (o.plan.Some? ==> && queryTree != null && fresh(queryTree) && query == o.query
                             && Snapshot() == o.plan.value)
        && (r.Ok? <==> o.result.Ok?)
        && (r.Ok? ==> r.value == (o.result.value, queryTree))
        && (r.Err? ==> r.error == o.result.error)
    {
      var found := mr.GetItem(q.model.name);
      if found.Err? {
        return Err(UnknownModel(found.error));
      }
      var m := found.value.className;
      queryTree := new Tree(catalog[m].name, Canonical(m));
      usedModels := usedModels + [m];
      var base := SelectFrom(Canonical(m));
      query := Some(base);
      assert Snapshot() == RootPlan(catalog, m, aliases);
      var built := SelectClause(base, q);
      if built.Err? {
        return Err(built.error);
      }
      return Ok((built.value, queryTree));
    }

    /** `__call__(cql_query)`: the query and the tree, or the error that
        stopped it, in the state `Compile` describes. */
    method Call(text: string) returns (r: Result<(PeeweeQuery, Tree<ModelRef, FieldRef, QueryCommand>), BuildError>)
      requires ValidCatalog(catalog) && RegistryInCatalog(catalog, mr.models)
      modifies this
      ensures var o := Compile(catalog, mr.models, old(aliases), text);
        && (o.plan.None? ==> && usedModels == [] && queryTree == old(queryTree)
                             && query == old(query) && aliases == old(aliases))
        && (o.plan.Some? ==> && queryTree != null && fresh(queryTree) && query == o.query
                             && Snapshot() == o.plan.value)
        && (r.Ok? <==> o.result.Ok?)
        && (r.Ok? ==> r.value == (o.result.value, queryTree))
        && (r.Err? ==> r.error == o.result.error)
    {
      usedModels := [];
      var parsed := Parser.ParseQueryText(text);
      if parsed.Err? {
        return Err(SyntaxError);
      }
      r := CallParsed(parsed.value);
    }
  }
}
