/** The earlier query planner of server/query_builder.py, with the tree node
    class of that file.

    Its `QueryBuilder.__init__` does all the work: it parses the query,
    starts a tree at the queried model and resolves the selected, grouped
    and ordered paths with `_add_to_node`. The walk is the one of
    server/query/builder.py without clause tags: a node records only the
    names of its plain fields, an n:m child records no shadow name, and the
    final query applies the selection list. The specification is a pure
    function over a `LegacyPlan`; `LegacyQueryBuilder` does the same work in
    place and is proved to end where the function does. */
module LegacyQueryBuilder {
  import opened Wrappers
  import opened ModelRegister
  import opened Peewee
  import QB = QueryBuilder
  import Parser

  // -----------------------------------------------------------------------
  // The tree of this file

  /** A `QueryTreeNode`: its name, its model, its parent, its children in
      order and the names of its plain fields in order. */
  datatype LegacyNode = LegacyNode(name: string, model: ModelRef, parent: Option<nat>, children: seq<nat>, fields: seq<string>)

  /** A node as `QueryTreeNode.__init__` leaves it. */
  function FreshNode(name: string, model: ModelRef, parent: Option<nat>): (n: LegacyNode)
    ensures n.children == [] && n.fields == []
    ensures n.name == name && n.model == model && n.parent == parent
  {
    LegacyNode(name, model, parent, [], [])
  }

  /** Node 0 is the root; every other node has an earlier parent, and the
      child lists point forward to nodes that name their parent back. */
  predicate TreeShape(nodes: seq<LegacyNode>)
  {
    && |nodes| >= 1 && nodes[0].parent.None?
    && (forall i :: 0 < i < |nodes| ==> nodes[i].parent.Some? && nodes[i].parent.value < i)
    && (forall i, k :: 0 <= i < |nodes| && 0 <= k < |nodes[i].children| ==>
          i < nodes[i].children[k] < |nodes| && nodes[nodes[i].children[k]].parent == Some(i))
  }

  /** The nodes after `add_child(name, model)` on node `p`. */
  function WithChild(nodes: seq<LegacyNode>, p: nat, name: string, model: ModelRef): (nodes': seq<LegacyNode>)
    requires p < |nodes|
    ensures |nodes'| == |nodes| + 1 && nodes'[|nodes|] == FreshNode(name, model, Some(p))
    ensures nodes'[p] == nodes[p].(children := nodes[p].children + [|nodes|])
  {
    nodes[p := nodes[p].(children := nodes[p].children + [|nodes|])] + [FreshNode(name, model, Some(p))]
  }

  /** `add_child` changes no other node. */
  lemma WithChildKeeps(nodes: seq<LegacyNode>, p: nat, name: string, model: ModelRef)
    requires p < |nodes|
    ensures forall j :: 0 <= j < |nodes| && j != p ==> WithChild(nodes, p, name, model)[j] == nodes[j]
  {
  }

  lemma WithChildShape(nodes: seq<LegacyNode>, p: nat, name: string, model: ModelRef)
    requires TreeShape(nodes) && p < |nodes|
    ensures TreeShape(WithChild(nodes, p, name, model))
  {
    var nodes' := WithChild(nodes, p, name, model);
    WithChildKeeps(nodes, p, name, model);
    assert forall i :: 0 <= i < |nodes| ==> nodes'[i].parent == nodes[i].parent;
    assert forall i :: 0 <= i < |nodes| && i != p ==> nodes'[i].children == nodes[i].children;
  }

  /** The nodes after `node.fields.append(name)` on node `p`. */
  function WithField(nodes: seq<LegacyNode>, p: nat, name: string): (nodes': seq<LegacyNode>)
    requires p < |nodes|
    ensures |nodes'| == |nodes| && nodes'[p] == nodes[p].(fields := nodes[p].fields + [name])
  {
    nodes[p := nodes[p].(fields := nodes[p].fields + [name])]
  }

  /** `node.fields.append` changes no other node. */
  lemma WithFieldKeeps(nodes: seq<LegacyNode>, p: nat, name: string)
    requires p < |nodes|
    ensures forall j :: 0 <= j < |nodes| && j != p ==> WithField(nodes, p, name)[j] == nodes[j]
  {
  }

  lemma WithFieldShape(nodes: seq<LegacyNode>, p: nat, name: string)
    requires TreeShape(nodes) && p < |nodes|
    ensures TreeShape(WithField(nodes, p, name))
  {
    var nodes' := WithField(nodes, p, name);
    WithFieldKeeps(nodes, p, name);
    assert forall i :: 0 <= i < |nodes| ==> nodes'[i].parent == nodes[i].parent && nodes'[i].children == nodes[i].children;
  }

  /** The first node among `ids`, in list order, carrying `name`. */
  function FirstNamed(nodes: seq<LegacyNode>, ids: seq<nat>, name: string): (r: Option<nat>)
    requires forall k :: 0 <= k < |ids| ==> ids[k] < |nodes|
    ensures r.Some? ==> r.value in ids && nodes[r.value].name == name
  {
    if ids == [] then None
    else if nodes[ids[0]].name == name then Some(ids[0])
    else FirstNamed(nodes, ids[1..], name)
  }

  /** No match means no entry carries the name. */
  lemma {:induction false} FirstNamedNone(nodes: seq<LegacyNode>, ids: seq<nat>, name: string)
    requires forall k :: 0 <= k < |ids| ==> ids[k] < |nodes|
    requires FirstNamed(nodes, ids, name).None?
    ensures forall k :: 0 <= k < |ids| ==> nodes[ids[k]].name != name
  {
    if ids != [] {
      FirstNamedNone(nodes, ids[1..], name);
      forall k | 1 <= k < |ids|
        ensures nodes[ids[k]].name != name
      {
        assert ids[k] == ids[1..][k - 1];
      }
    }
  }

  /** `get_child(name)`: the first child with that name, if any. */
  function ChildNamed(nodes: seq<LegacyNode>, p: nat, name: string): Option<nat>
    requires TreeShape(nodes) && p < |nodes|
  {
    FirstNamed(nodes, nodes[p].children, name)
  }

  /** The first match comes before every other entry of that name. */
  lemma {:induction false} FirstNamedIsFirst(nodes: seq<LegacyNode>, ids: seq<nat>, name: string)
    requires forall k :: 0 <= k < |ids| ==> ids[k] < |nodes|
    requires FirstNamed(nodes, ids, name).Some?
    ensures exists k :: 0 <= k < |ids| && ids[k] == FirstNamed(nodes, ids, name).value &&
                        (forall j :: 0 <= j < k ==> nodes[ids[j]].name != name)
  {
    if nodes[ids[0]].name == name {
      assert ids[0] == FirstNamed(nodes, ids, name).value;
    } else {
      FirstNamedIsFirst(nodes, ids[1..], name);
      var k :| 0 <= k < |ids[1..]| && ids[1..][k] == FirstNamed(nodes, ids[1..], name).value &&
        forall j :: 0 <= j < k ==> nodes[ids[1..][j]].name != name;
      assert ids[k + 1] == FirstNamed(nodes, ids, name).value;
      forall j | 0 <= j < k + 1
        ensures nodes[ids[j]].name != name
      {
        if j > 0 {
          assert ids[j] == ids[1..][j - 1];
        }
      }
    }
  }

  /** A match stays the match when the list grows at its end and the
      names already in it are kept. */
  lemma {:induction false} FirstNamedExtend(nodes: seq<LegacyNode>, nodes': seq<LegacyNode>, ids: seq<nat>, ids': seq<nat>, name: string)
    requires ids <= ids'
    requires forall k :: 0 <= k < |ids| ==> ids[k] < |nodes|
    requires forall k :: 0 <= k < |ids'| ==> ids'[k] < |nodes'|
    requires forall k :: 0 <= k < |ids| ==> nodes'[ids[k]].name == nodes[ids[k]].name
    requires FirstNamed(nodes, ids, name).Some?
    ensures FirstNamed(nodes', ids', name) == FirstNamed(nodes, ids, name)
  {
    assert ids'[0] == ids[0];
    if nodes[ids[0]].name != name {
      assert ids[1..] <= ids'[1..];
      FirstNamedExtend(nodes, nodes', ids[1..], ids'[1..], name);
    }
  }

  /** Appending an entry that carries the name to a list without a match
      makes that entry the match. */
  lemma {:induction false} FirstNamedAppend(nodes: seq<LegacyNode>, nodes': seq<LegacyNode>, ids: seq<nat>, id: nat, name: string)
    requires forall k :: 0 <= k < |ids| ==> ids[k] < |nodes| && ids[k] < |nodes'|
    requires forall k :: 0 <= k < |ids| ==> nodes'[ids[k]].name == nodes[ids[k]].name
    requires id < |nodes'| && nodes'[id].name == name
    requires FirstNamed(nodes, ids, name).None?
    ensures FirstNamed(nodes', ids + [id], name) == Some(id)
  {
    if ids == [] {
      assert ids + [id] == [id];
    } else {
      assert (ids + [id])[0] == ids[0];
      assert (ids + [id])[1..] == ids[1..] + [id];
      FirstNamedAppend(nodes, nodes', ids[1..], id, name);
    }
  }

  /** `QueryTreeNode.__iter__`: the node, then each child's walk in order.
      Only nodes are yielded: the field names are never part of the walk. */
  function Iter(nodes: seq<LegacyNode>, i: nat): seq<nat>
    requires TreeShape(nodes) && i < |nodes|
    decreases |nodes| - i, 1, 0
  {
    [i] + IterChildren(nodes, i, 0)
  }

  function IterChildren(nodes: seq<LegacyNode>, i: nat, k: nat): seq<nat>
    requires TreeShape(nodes) && i < |nodes| && k <= |nodes[i].children|
    decreases |nodes| - i, 0, |nodes[i].children| - k
  {
    if k == |nodes[i].children| then []
    else Iter(nodes, nodes[i].children[k]) + IterChildren(nodes, i, k + 1)
  }

  /** Each child's walk starts with the child, so the walks of the children
      from position `k` on are empty exactly when there are none left, and
      every one of those children is in them. */
  lemma {:induction false} IterChildrenMembers(nodes: seq<LegacyNode>, i: nat, k: nat)
    requires TreeShape(nodes) && i < |nodes| && k <= |nodes[i].children|
    ensures IterChildren(nodes, i, k) == [] <==> k == |nodes[i].children|
    ensures forall j :: k <= j < |nodes[i].children| ==> nodes[i].children[j] in IterChildren(nodes, i, k)
    decreases |nodes[i].children| - k
  {
    if k < |nodes[i].children| {
      IterChildrenMembers(nodes, i, k + 1);
      var c := nodes[i].children[k];
      var w, rest := Iter(nodes, c), IterChildren(nodes, i, k + 1);
      assert IterChildren(nodes, i, k) == w + rest;
      assert w[0] == c;
      assert (w + rest)[0] == c;
      forall j | k <= j < |nodes[i].children|
        ensures nodes[i].children[j] in w + rest
      {
        if j > k {
          assert nodes[i].children[j] in rest;
        }
      }
    }
  }

  /** The walk of a node yields the node first and each of its children;
      it is the node alone exactly when `is_leaf` holds. */
  lemma IterShape(nodes: seq<LegacyNode>, i: nat)
    requires TreeShape(nodes) && i < |nodes|
    ensures Iter(nodes, i)[0] == i
    ensures forall c :: c in nodes[i].children ==> c in Iter(nodes, i)
    ensures Iter(nodes, i) == [i] <==> |nodes[i].children| == 0
  {
    IterChildrenMembers(nodes, i, 0);
    assert forall c :: c in nodes[i].children ==> exists j :: 0 <= j < |nodes[i].children| && nodes[i].children[j] == c;
  }

  /** Everything the walk of `i` yields is a node at or after `i`. */
  lemma {:induction false} IterBounds(nodes: seq<LegacyNode>, i: nat)
    requires TreeShape(nodes) && i < |nodes|
    ensures forall x :: x in Iter(nodes, i) ==> i <= x < |nodes|
    decreases |nodes| - i, 1, 0
  {
    IterChildrenBounds(nodes, i, 0);
  }

  lemma {:induction false} IterChildrenBounds(nodes: seq<LegacyNode>, i: nat, k: nat)
    requires TreeShape(nodes) && i < |nodes| && k <= |nodes[i].children|
    ensures forall x :: x in IterChildren(nodes, i, k) ==> i < x < |nodes|
    decreases |nodes| - i, 0, |nodes[i].children| - k
  {
    if k < |nodes[i].children| {
      IterBounds(nodes, nodes[i].children[k]);
      IterChildrenBounds(nodes, i, k + 1);
    }
  }

  /** The `QueryTreeNode` objects of one tree. */
  class LegacyTree {
    var nodes: seq<LegacyNode>

    ghost predicate Valid()
      reads this
    {
      TreeShape(nodes)
    }

    /** `QueryTreeNode(name, model=model)` without a parent: a root. */
    constructor (name: string, model: ModelRef)
      ensures Valid() && nodes == [FreshNode(name, model, None)]
    {
      nodes := [FreshNode(name, model, None)];
    }

    /** `is_root`: a node without a parent. */
    predicate IsRoot(i: nat)
      reads this
      requires i < |nodes|
    {
      nodes[i].parent.None?
    }

    /** Exactly the first node is the root. */
    lemma RootIsFirst(i: nat)
      requires Valid() && i < |nodes|
      ensures IsRoot(i) <==> i == 0
    {
    }

    /** `is_leaf`: a node without children. */
    predicate IsLeaf(i: nat)
      reads this
      requires i < |nodes|
    {
      |nodes[i].children| == 0
    }

    /** `add_child(name, model)`: a new node at the end of the parent's
        children; nothing else changes. */
    method AddChild(p: nat, name: string, model: ModelRef) returns (c: nat)
      requires Valid() && p < |nodes|
      modifies this
      ensures Valid() && c == |old(nodes)| && nodes == WithChild(old(nodes), p, name, model) && !IsRoot(c)
    {
      WithChildShape(nodes, p, name, model);
      c := |nodes|;
      var parent := nodes[p];
      nodes := nodes[p := parent.(children := parent.children + [c])] + [FreshNode(name, model, Some(p))];
    }

    /** `node.fields.append(name)`. */
    method AddFieldName(p: nat, name: string)
      requires Valid() && p < |nodes|
      modifies this
      ensures Valid() && nodes == WithField(old(nodes), p, name)
    {
      WithFieldShape(nodes, p, name);
      var n := nodes[p];
      nodes := nodes[p := n.(fields := n.fields + [name])];
    }

    /** `get_child(name)`: scans the children in order and returns the
        first with that name, or nothing. */
    method GetChild(p: nat, name: string) returns (r: Option<nat>)
      requires Valid() && p < |nodes|
      ensures r == ChildNamed(nodes, p, name)
    {
      var children := nodes[p].children;
      var k := 0;
      while k < |children|
        invariant 0 <= k <= |children|
        invariant FirstNamed(nodes, children, name) == FirstNamed(nodes, children[k..], name)
      {
        if nodes[children[k]].name == name {
          return Some(children[k]);
        }
        assert children[k..][1..] == children[k + 1..];
        k := k + 1;
      }
      return None;
    }

    /** `__iter__` of node `i`. */
    function Walk(i: nat): (items: seq<nat>)
      reads this
      requires Valid() && i < |nodes|
      ensures |items| >= 1 && items[0] == i && (items == [i] <==> IsLeaf(i))
      ensures forall x :: x in items ==> i <= x < |nodes|
    {
      IterShape(nodes, i);
      IterBounds(nodes, i);
      Iter(nodes, i)
    }
  }

  // -----------------------------------------------------------------------
  // The plan

  /** What `_add_to_node` changes: the tree, `used_models`, the joins of
      `self.query` and the number of aliases made. */
  datatype LegacyPlan = LegacyPlan(nodes: seq<LegacyNode>, usedModels: seq<string>, joins: seq<Join>, aliases: nat)

  /** The invariant the builder keeps: a well-formed tree over models of the
      catalog, each model in `used_models` at most once, each field name in
      a node's list at most once, and local join conditions. */
  predicate PlanOk(cat: Catalog, p: LegacyPlan)
  {
    && TreeShape(p.nodes)
    && ModelsInCatalog(cat, p.nodes)
    && FieldsDistinct(p.nodes)
    && Distinct(p.usedModels)
    && QB.JoinsLocal(p.joins)
  }

  predicate ModelsInCatalog(cat: Catalog, nodes: seq<LegacyNode>)
  {
    forall j :: 0 <= j < |nodes| ==> nodes[j].model.model in cat
  }

  predicate FieldsDistinct(nodes: seq<LegacyNode>)
  {
    forall j :: 0 <= j < |nodes| ==> Distinct(nodes[j].fields)
  }

  datatype Step = Step(plan: LegacyPlan, node: nat)

  datatype Resolved<T> = Resolved(plan: LegacyPlan, result: Result<T, BuildError>)

  /** `node.add_child(field_head, join_model)` on the plan. */
  function AppendChild(p: LegacyPlan, i: nat, name: string, model: ModelRef): (s: Step)
    requires i < |p.nodes|
    ensures s.node == |p.nodes| && s.plan.nodes == WithChild(p.nodes, i, name, model)
    ensures s.plan.usedModels == p.usedModels && s.plan.joins == p.joins && s.plan.aliases == p.aliases
  {
    Step(p.(nodes := WithChild(p.nodes, i, name, model)), |p.nodes|)
  }

  lemma AppendChildOk(cat: Catalog, p: LegacyPlan, i: nat, name: string, model: ModelRef)
    requires PlanOk(cat, p) && i < |p.nodes| && model.model in cat
    ensures PlanOk(cat, AppendChild(p, i, name, model).plan)
  {
    WithChildShape(p.nodes, i, name, model);
  }

  /** `if field_head not in node.fields: node.fields.append(field_head)`. */
  function AddField(p: LegacyPlan, i: nat, head: string): (q: LegacyPlan)
    requires i < |p.nodes|
    ensures |q.nodes| == |p.nodes| && head in q.nodes[i].fields
    ensures q.usedModels == p.usedModels && q.joins == p.joins && q.aliases == p.aliases
  {
    if head in p.nodes[i].fields then p else p.(nodes := WithField(p.nodes, i, head))
  }

  lemma AddFieldOk(cat: Catalog, p: LegacyPlan, i: nat, head: string)
    requires PlanOk(cat, p) && i < |p.nodes|
    ensures PlanOk(cat, AddField(p, i, head))
  {
    if head !in p.nodes[i].fields {
      WithFieldShape(p.nodes, i, head);
    }
  }

  /** An n:1 foreign key: the child of that name, or a new child for the
      target joined on foreign key = primary key. */
  function ForeignKeyStep(cat: Catalog, p: LegacyPlan, i: nat, head: string, target: string): (s: Step)
    requires ValidCatalog(cat) && PlanOk(cat, p) && i < |p.nodes| && target in cat
    ensures PlanOk(cat, s.plan) && s.node < |s.plan.nodes|
  {
    match ChildNamed(p.nodes, i, head)
    case Some(c) => Step(p, c)
    case None =>
      var from := p.nodes[i].model;
      var j := JoinModel(p.usedModels, p.aliases, target);
      var join := Join(from, j.ref, QB.ForeignKeyCondition(from, head, j.ref, cat[target].primaryKey));
      var p1 := p.(usedModels := j.usedModels, aliases := j.aliases, joins := p.joins + [join]);
      AppendChildOk(cat, p1, i, head, j.ref);
      AppendChild(p1, i, head, j.ref)
  }

  /** A 1:n backref: the child of that name, or a new child for the model
      declaring the foreign key, joined on it. */
  function BackrefStep(cat: Catalog, p: LegacyPlan, i: nat, head: string, b: Backref): (s: Step)
    requires ValidCatalog(cat) && PlanOk(cat, p) && i < |p.nodes| && b.source in cat
    ensures PlanOk(cat, s.plan) && s.node < |s.plan.nodes|
  {
    match ChildNamed(p.nodes, i, head)
    case Some(c) => Step(p, c)
    case None =>
      var j := JoinModel(p.usedModels, p.aliases, b.source);
      var join := Join(p.nodes[i].model, j.ref, ForeignKeyOn(FieldRef(j.ref, b.fkField)));
      var p1 := p.(usedModels := j.usedModels, aliases := j.aliases, joins := p.joins + [join]);
      AppendChildOk(cat, p1, i, head, j.ref);
      AppendChild(p1, i, head, j.ref)
  }

  /** An n:m backref: the child of that name, or a new child for the far
      model reached by two joins through the junction; no shadow name is
      recorded. */
  function NmStep(cat: Catalog, p: LegacyPlan, i: nat, head: string, b: Backref): (s: Step)
    requires ValidCatalog(cat) && PlanOk(cat, p) && i < |p.nodes|
    requires b.source in cat && cat[b.source].kind == NmRelation
    requires b.fkField in cat[b.source].otherField
    requires cat[b.source].otherField[b.fkField] in cat[b.source].fields
    requires cat[b.source].fields[cat[b.source].otherField[b.fkField]].ForeignKey?
    ensures PlanOk(cat, s.plan) && s.node < |s.plan.nodes|
  {
    match ChildNamed(p.nodes, i, head)
    case Some(c) => Step(p, c)
    case None =>
      var (f2, far) := QB.FarSide(cat, b);
      var jr := JoinModel(p.usedModels, p.aliases, b.source);
      var jm := JoinModel(jr.usedModels, jr.aliases, far);
      var join1 := Join(p.nodes[i].model, jr.ref, ForeignKeyOn(FieldRef(jr.ref, b.fkField)));
      var join2 := Join(jr.ref, jm.ref, KeyEquals(FieldRef(jr.ref, f2), FieldRef(jm.ref, cat[far].primaryKey)));
      var p1 := p.(usedModels := jm.usedModels, aliases := jm.aliases, joins := p.joins + [join1, join2]);
      AppendChildOk(cat, p1, i, head, jm.ref);
      AppendChild(p1, i, head, jm.ref)
  }

  /** `_add_to_node(node, field_arr)`. */
  function Resolve(cat: Catalog, p: LegacyPlan, i: nat, path: Parser.Path): (r: Resolved<Selected>)
    requires ValidCatalog(cat) && PlanOk(cat, p) && i < |p.nodes|
    ensures PlanOk(cat, r.plan)
    decreases |path|, 1
  {
    if path == [] then Resolved(p, Err(EmptyPath))
    else
      var head := path[0];
      var m := p.nodes[i].model.model;
      match QB.KindOf(cat, m, head)
      case PlainSegment =>
        if |path| > 1 then Resolved(p, Err(NoChildren(head, cat[m].name)))
        else
          AddFieldOk(cat, p, i, head);
          Resolved(AddField(p, i, head), Ok(FieldSelected(FieldRef(p.nodes[i].model, head))))
      case ForeignKeySegment(target) => Descend(cat, ForeignKeyStep(cat, p, i, head, target), path)
      case BackrefSegment(b) => Descend(cat, BackrefStep(cat, p, i, head, b), path)
      case NmSegment(b) => Descend(cat, NmStep(cat, p, i, head, b), path)
      case UnknownSegment => Resolved(p, Err(NoSuchField(head, cat[m].name)))
  }

  /** After a relation segment: the child's model, or the rest of the path
      from the child. */
  function Descend(cat: Catalog, s: Step, path: Parser.Path): (r: Resolved<Selected>)
    requires ValidCatalog(cat) && PlanOk(cat, s.plan) && s.node < |s.plan.nodes| && path != []
    ensures PlanOk(cat, r.plan)
    decreases |path|, 0
  {
    if |path| == 1 then Resolved(s.plan, Ok(ModelSelected(s.plan.nodes[s.node].model)))
    else Resolve(cat, s.plan, s.node, path[1..])
  }

  /** `_add_to_node(query_tree, field_arr)` for every path in order, as the
      loops of `__init__` run it; the first failure stops the list. */
  function ResolveAll(cat: Catalog, p: LegacyPlan, paths: seq<Parser.Path>): (r: Resolved<seq<Selected>>)
    requires ValidCatalog(cat) && PlanOk(cat, p)
    ensures PlanOk(cat, r.plan)
    ensures r.result.Ok? ==> |r.result.value| == |paths|
    decreases |paths|
  {
    if paths == [] then Resolved(p, Ok([]))
    else
      var prior := ResolveAll(cat, p, paths[..|paths| - 1]);
      if prior.result.Err? then prior
      else
        var last := Resolve(cat, prior.plan, 0, paths[|paths| - 1]);
        match last.result
        case Err(e) => Resolved(last.plan, Err(e))
        case Ok(s) => Resolved(last.plan, Ok(prior.result.value + [s]))
  }

  lemma {:induction false} ResolveAllStep(cat: Catalog, p: LegacyPlan, paths: seq<Parser.Path>, k: nat)
    requires ValidCatalog(cat) && PlanOk(cat, p) && k < |paths|
    requires ResolveAll(cat, p, paths[..k]).result.Ok?
    ensures var prior := ResolveAll(cat, p, paths[..k]);
      var last := Resolve(cat, prior.plan, 0, paths[k]);
      ResolveAll(cat, p, paths[..k + 1])
        == if last.result.Err? then Resolved(last.plan, Err(last.result.error))
           else Resolved(last.plan, Ok(prior.result.value + [last.result.value]))
  {
    assert paths[..k + 1][..k] == paths[..k];
  }

  lemma {:induction false} ResolveAllStops(cat: Catalog, p: LegacyPlan, paths: seq<Parser.Path>, n: nat)
    requires ValidCatalog(cat) && PlanOk(cat, p) && n <= |paths|
    requires ResolveAll(cat, p, paths[..n]).result.Err?
    ensures ResolveAll(cat, p, paths) == ResolveAll(cat, p, paths[..n])
    decreases |paths| - n
  {
    if n < |paths| {
      var ps := paths[..n + 1];
      assert ps[..|ps| - 1] == paths[..n];
      ResolveAllStops(cat, p, paths, n + 1);
    } else {
      assert paths[..n] == paths;
    }
  }

  // -----------------------------------------------------------------------
  // The whole of `__init__`

  /** What `__init__` leaves behind: the plan when it got as far as the
      tree, and the query it stores in `self.query` or the error it raised. */
  datatype Outcome = Outcome(plan: Option<LegacyPlan>, result: Result<PeeweeQuery, BuildError>)

  function RootPlan(cat: Catalog, m: string, aliases: nat): (p: LegacyPlan)
    requires ValidCatalog(cat) && m in cat
    ensures PlanOk(cat, p) && |p.nodes| == 1 && p.nodes[0] == FreshNode(cat[m].name, Canonical(m), None)
    ensures p.usedModels == [m] && p.joins == []
  {
    LegacyPlan([FreshNode(cat[m].name, Canonical(m), None)], [m], [], aliases)
  }

  /** After parsing: the registry lookup, the root and the three loops. */
  function BuildParsed(cat: Catalog, models: map<string, ModelClass>, aliases: nat, q: Parser.Query): (o: Outcome)
    requires ValidCatalog(cat) && RegistryInCatalog(cat, models)
    ensures o.plan.Some? ==> PlanOk(cat, o.plan.value)
  {
    if q.model.name !in models then Outcome(None, Err(UnknownModel(KeyError(q.model.name))))
    else
      var m := models[q.model.name].className;
      SelectStage(cat, m, RootPlan(cat, m, aliases), q)
  }

  function SelectStage(cat: Catalog, m: string, p: LegacyPlan, q: Parser.Query): (o: Outcome)
    requires ValidCatalog(cat) && PlanOk(cat, p)
    ensures o.plan.Some? && PlanOk(cat, o.plan.value)
  {
    var fs := QB.SelectionFields(q.select);
    var sel := ResolveAll(cat, p, QB.PathsOf(fs));
    if sel.result.Err? then Outcome(Some(sel.plan), Err(sel.result.error))
    else GroupByStage(cat, m, sel.plan, QB.Selections(fs, sel.result.value), q)
  }

  function GroupByStage(cat: Catalog, m: string, p: LegacyPlan, selections: seq<Projection>, q: Parser.Query): (o: Outcome)
    requires ValidCatalog(cat) && PlanOk(cat, p)
    ensures o.plan.Some? && PlanOk(cat, o.plan.value)
  {
    var gb := ResolveAll(cat, p, QB.ClausePaths(q.groupBy));
    if gb.result.Err? then Outcome(Some(gb.plan), Err(gb.result.error))
    else OrderByStage(cat, m, gb.plan, selections, gb.result.value, q)
  }

  /** The order-by loop, then `group_by`, `order_by`, `select` of the
      selection list and `limit(1000)`. */
  function OrderByStage(cat: Catalog, m: string, p: LegacyPlan, selections: seq<Projection>, groupBy: seq<Selected>, q: Parser.Query): (o: Outcome)
    requires ValidCatalog(cat) && PlanOk(cat, p)
    ensures o.plan.Some? && PlanOk(cat, o.plan.value)
  {
    var ob := ResolveAll(cat, p, QB.ClausePaths(q.orderBy));
    if ob.result.Err? then Outcome(Some(ob.plan), Err(ob.result.error))
    else Outcome(Some(ob.plan), Ok(PeeweeQuery(Canonical(m), ob.plan.joins, groupBy, ob.result.value, Some(1000), Some(selections))))
  }

  /** `QueryBuilder(cql_query, mr)`. */
  function Build(cat: Catalog, models: map<string, ModelClass>, text: string): (o: Outcome)
    requires ValidCatalog(cat) && RegistryInCatalog(cat, models)
    ensures o.plan.Some? ==> PlanOk(cat, o.plan.value)
  {
    match Parser.ParseQueryText(text)
    case Err(_) => Outcome(None, Err(SyntaxError))
    case Ok(q) => BuildParsed(cat, models, 0, q)
  }

  // -----------------------------------------------------------------------
  // The builder object

  class LegacyQueryBuilder {
    const cqlQuery: string
    const catalog: Catalog
    const mr: Register
    var usedModels: seq<string>
    var query: Option<PeeweeQuery>
    /** How many aliases have been made: the identity of the next. */
    var aliases: nat

    /** The assignments `__init__` starts with. */
    constructor Init(catalog: Catalog, cqlQuery: string, mr: Register)
      ensures this.catalog == catalog && this.cqlQuery == cqlQuery && this.mr == mr
      ensures usedModels == [] && query == None && aliases == 0
    {
      this.catalog := catalog;
      this.cqlQuery := cqlQuery;
      this.mr := mr;
      usedModels := [];
      query := None;
      aliases := 0;
    }

    /** The builder's state, with the local tree of `__init__`, as a
        plan. */
    function Snapshot(tree: LegacyTree): LegacyPlan
      reads this, tree
      requires query.Some?
    {
      LegacyPlan(tree.nodes, usedModels, query.value.joins, aliases)
    }

    ghost predicate Planning(tree: LegacyTree)
      reads this, tree
    {
      query.Some? && ValidCatalog(catalog) && PlanOk(catalog, Snapshot(tree))
    }

    /** Record the model, or make an alias of it. */
    method JoinIdentity(model: string) returns (ref: ModelRef)
      modifies this
      ensures var j := JoinModel(old(usedModels), old(aliases), model);
        ref == j.ref && usedModels == j.usedModels && aliases == j.aliases
      ensures query == old(query)
    {
      if model !in usedModels {
        usedModels := usedModels + [model];
        ref := Canonical(model);
      } else {
        ref := Aliased(model, aliases);
        aliases := aliases + 1;
      }
    }

    /** `self.query = self.query.join_from(...)`. */
    method AddJoin(j: Join)
      requires query.Some?
      modifies this
      ensures query == Some(old(query.value).(joins := old(query.value.joins) + [j]))
      ensures usedModels == old(usedModels) && aliases == old(aliases)
    {
      query := Some(query.value.(joins := query.value.joins + [j]));
    }

    method StepForeignKey(tree: LegacyTree, i: nat, head: string, target: string) returns (c: nat)
      requires Planning(tree) && i < |tree.nodes| && target in catalog
      modifies this, tree
      ensures query.Some? && query.value == old(query.value).(joins := query.value.joins)
      ensures var s := ForeignKeyStep(catalog, old(Snapshot(tree)), i, head, target); Snapshot(tree) == s.plan && c == s.node
    {
      var found := tree.GetChild(i, head);
      if found.Some? {
        return found.value;
      }
      var from := tree.nodes[i].model;
      var ref := JoinIdentity(target);
      AddJoin(Join(from, ref, QB.ForeignKeyCondition(from, head, ref, catalog[target].primaryKey)));
      c := tree.AddChild(i, head, ref);
    }

    method StepBackref(tree: LegacyTree, i: nat, head: string, b: Backref) returns (c: nat)
      requires Planning(tree) && i < |tree.nodes| && b.source in catalog
      modifies this, tree
      ensures query.Some? && query.value == old(query.value).(joins := query.value.joins)
      ensures var s := BackrefStep(catalog, old(Snapshot(tree)), i, head, b); Snapshot(tree) == s.plan && c == s.node
    {
      var found := tree.GetChild(i, head);
      if found.Some? {
        return found.value;
      }
      var from := tree.nodes[i].model;
      var ref := JoinIdentity(b.source);
      AddJoin(Join(from, ref, ForeignKeyOn(FieldRef(ref, b.fkField))));
      c := tree.AddChild(i, head, ref);
    }

    method StepNm(tree: LegacyTree, i: nat, head: string, b: Backref) returns (c: nat)
      requires Planning(tree) && i < |tree.nodes|
      requires b.source in catalog && catalog[b.source].kind == NmRelation
      requires b.fkField in catalog[b.source].otherField
      requires catalog[b.source].otherField[b.fkField] in catalog[b.source].fields
      requires catalog[b.source].fields[catalog[b.source].otherField[b.fkField]].ForeignKey?
      modifies this, tree
      ensures query.Some? && query.value == old(query.value).(joins := query.value.joins)
      ensures var s := NmStep(catalog, old(Snapshot(tree)), i, head, b); Snapshot(tree) == s.plan && c == s.node
    {
      var found := tree.GetChild(i, head);
      if found.Some? {
        return found.value;
      }
      var from := tree.nodes[i].model;
      var side := QB.FarSide(catalog, b);
      var otherField, joinModel := side.0, side.1;
      var relation := JoinIdentity(b.source);
      var far := JoinIdentity(joinModel);
      AddJoin(Join(from, relation, ForeignKeyOn(FieldRef(relation, b.fkField))));
      AddJoin(Join(relation, far, KeyEquals(FieldRef(relation, otherField), FieldRef(far, catalog[joinModel].primaryKey))));
      c := tree.AddChild(i, head, far);
    }

    /** `_add_to_node(node, field_arr)`. */
    method AddToNode(tree: LegacyTree, i: nat, path: Parser.Path) returns (r: Result<Selected, BuildError>)
      requires Planning(tree) && i < |tree.nodes|
      modifies this, tree
      ensures query.Some? && query.value == old(query.value).(joins := query.value.joins)
      ensures Resolved(Snapshot(tree), r) == Resolve(catalog, old(Snapshot(tree)), i, path)
      decreases |path|, 2
    {
      if path == [] {
        return Err(EmptyPath);
      }
      var head := path[0];
      var m := tree.nodes[i].model.model;
      var k := QB.KindOf(catalog, m, head);
      if k.PlainSegment? {
        if |path| > 1 {
          return Err(NoChildren(head, catalog[m].name));
        }
        if head !in tree.nodes[i].fields {
          tree.AddFieldName(i, head);
        }
        return Ok(FieldSelected(FieldRef(tree.nodes[i].model, head)));
      } else if k.UnknownSegment? {
        return Err(NoSuchField(head, catalog[m].name));
      }
      r := RelationBranch(tree, i, path, k);
    }

    /** The three relation branches: the child, then its model or the rest
        of the path. */
    method RelationBranch(tree: LegacyTree, i: nat, path: Parser.Path, k: QB.SegmentKind) returns (r: Result<Selected, BuildError>)
      requires Planning(tree) && i < |tree.nodes| && path != []
      requires k == QB.KindOf(catalog, tree.nodes[i].model.model, path[0]) && !k.PlainSegment? && !k.UnknownSegment?
      modifies this, tree
      ensures query.Some? && query.value == old(query.value).(joins := query.value.joins)
      ensures Resolved(Snapshot(tree), r) == Resolve(catalog, old(Snapshot(tree)), i, path)
      decreases |path|, 1
    {
      var c;
      if k.ForeignKeySegment? {
        c := StepForeignKey(tree, i, path[0], k.target);
      } else if k.BackrefSegment? {
        c := StepBackref(tree, i, path[0], k.b);
      } else {
        c := StepNm(tree, i, path[0], k.b);
      }
      if |path| == 1 {
        return Ok(ModelSelected(tree.nodes[c].model));
      }
      r := AddToNode(tree, c, path[1..]);
    }

    /** One loop of `__init__` over a list of paths from the root. */
    method ResolvePaths(tree: LegacyTree, paths: seq<Parser.Path>) returns (r: Result<seq<Selected>, BuildError>)
      requires Planning(tree)
      modifies this, tree
      ensures query.Some? && query.value == old(query.value).(joins := query.value.joins)
      ensures Resolved(Snapshot(tree), r) == ResolveAll(catalog, old(Snapshot(tree)), paths)
    {
      var selected: seq<Selected> := [];
      var k := 0;
      while k < |paths|
        invariant k <= |paths|
        invariant Planning(tree)
        invariant query.Some? && query.value == old(query.value).(joins := query.value.joins)
        invariant Resolved(Snapshot(tree), Ok(selected)) == ResolveAll(catalog, old(Snapshot(tree)), paths[..k])
      {
        ResolveAllStep(catalog, old(Snapshot(tree)), paths, k);
        var s := AddToNode(tree, 0, paths[k]);
        if s.Err? {
          ResolveAllStops(catalog, old(Snapshot(tree)), paths, k + 1);
          return Err(s.error);
        }
        selected := selected + [s.value];
        k := k + 1;
      }
      assert paths[..k] == paths;
      return Ok(selected);
    }

    /** The body of `__init__` after the first three assignments: on
        success `self.query` holds the query `Build` describes. */
    method Run() returns (r: Result<PeeweeQuery, BuildError>)
      requires ValidCatalog(catalog) && RegistryInCatalog(catalog, mr.models)
      requires usedModels == [] && aliases == 0
      modifies this
      ensures var o := Build(catalog, mr.models, cqlQuery);
        && r == o.result
        && (r.Ok? ==> query == Some(r.value) && usedModels == o.plan.value.usedModels)
    {
      var parsed := Parser.ParseQueryText(cqlQuery);
      if parsed.Err? {
        return Err(SyntaxError);
      }
      r := RunParsed(parsed.value);
    }

    method RunParsed(q: Parser.Query) returns (r: Result<PeeweeQuery, BuildError>)
      requires ValidCatalog(catalog) && RegistryInCatalog(catalog, mr.models) && usedModels == []
      modifies this
      ensures var o := BuildParsed(catalog, mr.models, old(aliases), q);
        && r == o.result
        && (r.Ok? ==> query == Some(r.value) && usedModels == o.plan.value.usedModels)
    {
      var found := mr.GetItem(q.model.name);
      if found.Err? {
        return Err(UnknownModel(found.error));
      }
      var m := found.value.className;
      var tree := new LegacyTree(catalog[m].name, Canonical(m));
      usedModels := usedModels + [m];
      query := Some(SelectFrom(Canonical(m)));
      assert Snapshot(tree) == RootPlan(catalog, m, aliases);
      r := SelectLoop(tree, m, q);
    }

    method SelectLoop(tree: LegacyTree, m: string, q: Parser.Query) returns (r: Result<PeeweeQuery, BuildError>)
      requires Planning(tree) && query == Some(SelectFrom(Canonical(m)).(joins := query.value.joins))
      modifies this, tree
      ensures var o := SelectStage(catalog, m, old(Snapshot(tree)), q);
        && r == o.result && query.Some? && Snapshot(tree) == o.plan.value
        && (r.Ok? ==> query == Some(r.value))
    {
      var fs := QB.SelectionFields(q.select);
      var sel := ResolvePaths(tree, QB.PathsOf(fs));
      if sel.Err? {
        return Err(sel.error);
      }
      r := GroupByLoop(tree, m, QB.Selections(fs, sel.value), q);
    }

    method GroupByLoop(tree: LegacyTree, m: string, selections: seq<Projection>, q: Parser.Query) returns (r: Result<PeeweeQuery, BuildError>)
      requires Planning(tree) && query == Some(SelectFrom(Canonical(m)).(joins := query.value.joins))
      modifies this, tree
      ensures var o := GroupByStage(catalog, m, old(Snapshot(tree)), selections, q);
        && r == o.result && query.Some? && Snapshot(tree) == o.plan.value
        && (r.Ok? ==> query == Some(r.value))
    {
      var gb := ResolvePaths(tree, QB.ClausePaths(q.groupBy));
      if gb.Err? {
        return Err(gb.error);
      }
      r := OrderByLoop(tree, m, selections, gb.value, q);
    }

    /** The order-by loop and the lines that overwrite `self.query`. */
    method OrderByLoop(tree: LegacyTree, m: string, selections: seq<Projection>, groupBy: seq<Selected>, q: Parser.Query) returns (r: Result<PeeweeQuery, BuildError>)
      requires Planning(tree) && query == Some(SelectFrom(Canonical(m)).(joins := query.value.joins))
      modifies this, tree
      ensures var o := OrderByStage(catalog, m, old(Snapshot(tree)), selections, groupBy, q);
        && r == o.result && query.Some? && Snapshot(tree) == o.plan.value
        && (r.Ok? ==> query == Some(r.value))
    {
      var ob := ResolvePaths(tree, QB.ClausePaths(q.orderBy));
      if ob.Err? {
        return Err(ob.error);
      }
      query := Some(query.value.(groupBy := groupBy));
      query := Some(query.value.(orderBy := ob.value));
      query := Some(query.value.(selection := Some(selections), limit := Some(1000)));
      return Ok(query.value);
    }
  }

  /** Constructing `QueryBuilder(cql_query, mr)`: the new object, holding
      the query `Build` describes, or the error `__init__` raised. */
  method New(catalog: Catalog, cqlQuery: string, mr: Register) returns (r: Result<LegacyQueryBuilder, BuildError>)
    requires ValidCatalog(catalog) && RegistryInCatalog(catalog, mr.models)
    ensures var o := Build(catalog, mr.models, cqlQuery);
      && (r.Ok? <==> o.result.Ok?)
      && (r.Err? ==> r.error == o.result.error)
      && (r.Ok? ==> && fresh(r.value) && r.value.cqlQuery == cqlQuery && r.value.mr == mr
                    && r.value.query == Some(o.result.value) && r.value.usedModels == o.plan.value.usedModels)
  {
    var b := new LegacyQueryBuilder.Init(catalog, cqlQuery, mr);
    var built := b.Run();
    if built.Err? {
      return Err(built.error);
    }
    return Ok(b);
  }
}
