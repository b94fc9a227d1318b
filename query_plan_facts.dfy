/** What `_add_to_node` and `__call__` of server/query/builder.py promise,
    proved about the plan functions of `QueryBuilder`: planning only ever
    grows the tree, the joins and `used_models`; a resolved path can be
    found again, tagged, in the tree; resolving it a second time changes
    nothing; the root is never tagged; and each kind of segment adds the
    child and joins it is meant to. */
module QueryPlanFacts {
  import opened Wrappers
  import opened ModelRegister
  import opened QueryTree
  import opened Peewee
  import opened QueryBuilder
  import Parser

  // -----------------------------------------------------------------------
  // Planning only grows the plan

  /** A node after more planning: the same name, model, shadow name and
      parent, and lists that have only been appended to. */
  predicate NodeGrown(n: PlanNode, n': PlanNode)
  {
    && n'.name == n.name && n'.model == n.model && n'.shadowName == n.shadowName && n'.parent == n.parent
    && n.children <= n'.children && n.fields <= n'.fields && n.commands <= n'.commands
  }

  predicate FieldGrown(f: PlanField, f': PlanField)
  {
    f'.name == f.name && f'.field == f.field && f'.parent == f.parent && f.commands <= f'.commands
  }

  /** `q` is `p` after more planning: no node, field node, join or used
      model removed or changed, only new ones appended and lists extended. */
  predicate Grown(p: Plan, q: Plan)
  {
    && |p.nodes| <= |q.nodes|
    && (forall j :: 0 <= j < |p.nodes| ==> NodeGrown(p.nodes[j], q.nodes[j]))
    && |p.fieldNodes| <= |q.fieldNodes|
    && (forall f :: 0 <= f < |p.fieldNodes| ==> FieldGrown(p.fieldNodes[f], q.fieldNodes[f]))
    && p.usedModels <= q.usedModels && p.joins <= q.joins && p.aliases <= q.aliases
  }

  lemma GrownTrans(p: Plan, q: Plan, r: Plan)
    requires Grown(p, q) && Grown(q, r)
    ensures Grown(p, r)
  {
    forall j | 0 <= j < |p.nodes|
      ensures NodeGrown(p.nodes[j], r.nodes[j])
    {
      assert NodeGrown(p.nodes[j], q.nodes[j]) && NodeGrown(q.nodes[j], r.nodes[j]);
    }
    forall f | 0 <= f < |p.fieldNodes|
      ensures FieldGrown(p.fieldNodes[f], r.fieldNodes[f])
    {
      assert FieldGrown(p.fieldNodes[f], q.fieldNodes[f]) && FieldGrown(q.fieldNodes[f], r.fieldNodes[f]);
    }
  }

  /** What a relation step hands back: the first child of `i` named `head`,
      found or appended, placed after `i`, with no node tagged, no field
      node touched and the nodes before `i` as they were. */
  predicate ChildStep(p: Plan, i: nat, head: string, s: Step)
  {
    && Grown(p, s.plan) && TreeShape(s.plan.nodes) && i < |p.nodes| && i < s.node < |s.plan.nodes|
    && ChildNamed(s.plan.nodes, i, head) == Some(s.node)
    && (forall j :: 0 <= j < |p.nodes| ==> s.plan.nodes[j].commands == p.nodes[j].commands)
    && (forall j :: 0 <= j < i ==> s.plan.nodes[j] == p.nodes[j])
    && s.plan.fieldNodes == p.fieldNodes
  }

  /** Appending a child to `i` changes node `i` only in its child list. */
  lemma AppendChildGrows(p: Plan, nodes': seq<PlanNode>, i: nat, head: string, ref: ModelRef, shadowName: Option<string>)
    requires i < |p.nodes|
    requires nodes' == p.nodes[i := p.nodes[i].(children := p.nodes[i].children + [|p.nodes|])] + [FreshNode(head, ref, shadowName, Some(i))]
    ensures |nodes'| == |p.nodes| + 1
    ensures forall j :: 0 <= j < |p.nodes| ==> NodeGrown(p.nodes[j], nodes'[j])
    ensures forall j :: 0 <= j < |p.nodes| ==> nodes'[j].commands == p.nodes[j].commands
    ensures forall j :: 0 <= j < |p.nodes| && j != i ==> nodes'[j] == p.nodes[j]
    ensures nodes'[i].children == p.nodes[i].children + [|p.nodes|] && nodes'[|p.nodes|].name == head
  {
  }

  /** `add_child` of a name `i` has no child of yet makes the new node the
      first child of that name. */
  lemma {:induction false} AppendNewChild(p: Plan, p1: Plan, i: nat, head: string, ref: ModelRef, shadowName: Option<string>)
    requires WellFormed(p.nodes, p.fieldNodes) && i < |p.nodes| && ChildNamed(p.nodes, i, head).None?
    requires p1.nodes == p.nodes && p1.fieldNodes == p.fieldNodes
    requires p.usedModels <= p1.usedModels && p.joins <= p1.joins && p.aliases <= p1.aliases
    ensures ChildStep(p, i, head, AppendChild(p1, i, head, ref, shadowName))
  {
    var s := AppendChild(p1, i, head, ref, shadowName);
    var nodes' := s.plan.nodes;
    AppendChildGrows(p, nodes', i, head, ref, shadowName);
    ChildAddedShape(p.nodes, p.fieldNodes, i, head, ref, shadowName);
    var kids := p.nodes[i].children;
    assert forall k :: 0 <= k < |kids| ==> kids[k] < |p.nodes|;
    FirstNodeNamedNames(p.nodes, nodes', kids, head);
    FirstNodeNamedAppend(nodes', kids, |p.nodes|, head);
    assert ChildNamed(nodes', i, head) == Some(s.node);
    assert Grown(p, s.plan);
  }

  /** An existing child comes after its parent. */
  lemma FoundChild(p: Plan, i: nat, head: string)
    requires TreeShape(p.nodes) && i < |p.nodes| && ChildNamed(p.nodes, i, head).Some?
    ensures ChildStep(p, i, head, Step(p, ChildNamed(p.nodes, i, head).value))
  {
    var c := ChildNamed(p.nodes, i, head).value;
    var k :| 0 <= k < |p.nodes[i].children| && p.nodes[i].children[k] == c;
  }

  lemma ForeignKeyChild(cat: Catalog, p: Plan, i: nat, head: string, target: string)
    requires ValidCatalog(cat) && PlanOk(cat, p) && i < |p.nodes| && target in cat
    ensures ChildStep(p, i, head, ForeignKeyStep(cat, p, i, head, target))
  {
    match ChildNamed(p.nodes, i, head)
    case Some(c) => FoundChild(p, i, head);
    case None =>
      var from := p.nodes[i].model;
      var j := JoinModel(p.usedModels, p.aliases, target);
      var join := Join(from, j.ref, ForeignKeyCondition(from, head, j.ref, cat[target].primaryKey));
      AppendNewChild(p, p.(usedModels := j.usedModels, aliases := j.aliases, joins := p.joins + [join]), i, head, j.ref, None);
  }

  lemma BackrefChild(cat: Catalog, p: Plan, i: nat, head: string, b: Backref)
    requires ValidCatalog(cat) && PlanOk(cat, p) && i < |p.nodes| && b.source in cat
    ensures ChildStep(p, i, head, BackrefStep(cat, p, i, head, b))
  {
    match ChildNamed(p.nodes, i, head)
    case Some(c) => FoundChild(p, i, head);
    case None =>
      var j := JoinModel(p.usedModels, p.aliases, b.source);
      var join := Join(p.nodes[i].model, j.ref, ForeignKeyOn(FieldRef(j.ref, b.fkField)));
      AppendNewChild(p, p.(usedModels := j.usedModels, aliases := j.aliases, joins := p.joins + [join]), i, head, j.ref, None);
  }

  lemma NmChild(cat: Catalog, p: Plan, i: nat, head: string, b: Backref)
    requires ValidCatalog(cat) && PlanOk(cat, p) && i < |p.nodes|
    requires b.source in cat && cat[b.source].kind == NmRelation
    requires b.fkField in cat[b.source].otherField
    requires cat[b.source].otherField[b.fkField] in cat[b.source].fields
    requires cat[b.source].fields[cat[b.source].otherField[b.fkField]].ForeignKey?
    ensures ChildStep(p, i, head, NmStep(cat, p, i, head, b))
  {
    match ChildNamed(p.nodes, i, head)
    case Some(c) => FoundChild(p, i, head);
    case None =>
      var (f2, far) := FarSide(cat, b);
      var jr := JoinModel(p.usedModels, p.aliases, b.source);
      var jm := JoinModel(jr.usedModels, jr.aliases, far);
      var join1 := Join(p.nodes[i].model, jr.ref, ForeignKeyOn(FieldRef(jr.ref, b.fkField)));
      var join2 := Join(jr.ref, jm.ref, KeyEquals(FieldRef(jr.ref, f2), FieldRef(jm.ref, cat[far].primaryKey)));
      AppendNewChild(p, p.(usedModels := jm.usedModels, aliases := jm.aliases, joins := p.joins + [join1, join2]), i, head, jm.ref, Some(f2));
  }

  /** What the plain-field step hands back: the first field node of `i`
      named `head`, found or appended; no node tagged, the joins and the
      nodes other than `i` as they were. */
  predicate FieldStepped(p: Plan, i: nat, head: string, s: Step)
  {
    && Grown(p, s.plan) && FieldShape(s.plan.nodes, s.plan.fieldNodes)
    && i < |s.plan.nodes| && s.node < |s.plan.fieldNodes|
    && FieldNamed(s.plan.nodes, s.plan.fieldNodes, i, head) == Some(s.node)
    && |s.plan.nodes| == |p.nodes|
    && (forall j :: 0 <= j < |p.nodes| && j != i ==> s.plan.nodes[j] == p.nodes[j])
    && s.plan.nodes[i].commands == p.nodes[i].commands
    && s.plan.joins == p.joins && s.plan.usedModels == p.usedModels && s.plan.aliases == p.aliases
  }

  /** Appending a field node to `i` changes node `i` only in its field
      list. */
  lemma AppendFieldGrows(p: Plan, nodes': seq<PlanNode>, i: nat)
    requires i < |p.nodes|
    requires nodes' == p.nodes[i := p.nodes[i].(fields := p.nodes[i].fields + [|p.fieldNodes|])]
    ensures |nodes'| == |p.nodes|
    ensures forall j :: 0 <= j < |p.nodes| ==> NodeGrown(p.nodes[j], nodes'[j])
    ensures forall j :: 0 <= j < |p.nodes| && j != i ==> nodes'[j] == p.nodes[j]
    ensures nodes'[i].commands == p.nodes[i].commands && nodes'[i].fields == p.nodes[i].fields + [|p.fieldNodes|]
  {
  }

  lemma FieldStepFacts(cat: Catalog, p: Plan, i: nat, head: string)
    requires PlanOk(cat, p) && i < |p.nodes|
    ensures FieldStepped(p, i, head, FieldStep(cat, p, i, head))
  {
    if FieldNamed(p.nodes, p.fieldNodes, i, head).None? {
      FieldStepAdds(cat, p, i, head);
    }
  }

  lemma FieldStepAdds(cat: Catalog, p: Plan, i: nat, head: string)
    requires PlanOk(cat, p) && i < |p.nodes| && FieldNamed(p.nodes, p.fieldNodes, i, head).None?
    ensures FieldStepped(p, i, head, FieldStep(cat, p, i, head))
  {
    var fs := p.nodes[i].fields;
    assert forall k :: 0 <= k < |fs| ==> fs[k] < |p.fieldNodes|;
    var s := FieldStep(cat, p, i, head);
    AppendFieldGrows(p, s.plan.nodes, i);
    FieldAddedShape(p.nodes, p.fieldNodes, i, head, FieldRef(p.nodes[i].model, head));
    FirstFieldNamedNames(p.fieldNodes, s.plan.fieldNodes, fs, head);
    FirstFieldNamedAppend(s.plan.fieldNodes, fs, |p.fieldNodes|, head);
  }

  /** Tagging node `c` changes node `c` only in its command list. */
  lemma TagNodeGrows(p: Plan, c: nat, cmd: QueryCommand)
    requires c < |p.nodes|
    ensures var q := TagNode(p, c, cmd);
      && Grown(p, q)
      && (forall j :: 0 <= j < |p.nodes| && j != c ==> q.nodes[j] == p.nodes[j])
      && q.nodes[c].children == p.nodes[c].children && q.nodes[c].fields == p.nodes[c].fields
  {
    var q := TagNode(p, c, cmd);
    assert forall j :: 0 <= j < |q.nodes| ==> NodeGrown(p.nodes[j], q.nodes[j]);
  }

  /** Tagging field node `f` changes nothing but its command list. */
  lemma TagFieldGrows(p: Plan, f: nat, cmd: QueryCommand)
    requires f < |p.fieldNodes|
    ensures var q := TagField(p, f, cmd);
      && Grown(p, q)
      && (forall g :: 0 <= g < |p.fieldNodes| && g != f ==> q.fieldNodes[g] == p.fieldNodes[g])
      && q.fieldNodes[f].name == p.fieldNodes[f].name && q.fieldNodes[f].field == p.fieldNodes[f].field
  {
    var q := TagField(p, f, cmd);
    assert forall g :: 0 <= g < |q.fieldNodes| ==> FieldGrown(p.fieldNodes[g], q.fieldNodes[g]);
  }

  // -----------------------------------------------------------------------
  // The frame of `_add_to_node`

  /** `q` grew from `p`, with every node before `i` as it was and `i`
      itself not tagged. */
  predicate Framed(p: Plan, q: Plan, i: nat)
  {
    && Grown(p, q) && i < |p.nodes|
    && (forall j :: 0 <= j < i ==> q.nodes[j] == p.nodes[j])
    && q.nodes[i].commands == p.nodes[i].commands
  }

  /** Resolving from node `i` only grows the plan, leaves every node before
      `i` as it was and never tags `i` itself. */
  lemma {:induction false} ResolveFrame(cat: Catalog, p: Plan, i: nat, path: Parser.Path, cmd: QueryCommand)
    requires ValidCatalog(cat) && PlanOk(cat, p) && i < |p.nodes|
    ensures Framed(p, Resolve(cat, p, i, path, cmd).plan, i)
    decreases |path|, 2
  {
    if path != [] {
      var head := path[0];
      match KindOf(cat, p.nodes[i].model.model, head)
      case PlainSegment =>
        if |path| == 1 {
          FieldFrame(cat, p, i, path, cmd);
        }
      case ForeignKeySegment(target) => ForeignKeyFrame(cat, p, i, path, cmd, target);
      case BackrefSegment(b) => BackrefFrame(cat, p, i, path, cmd, b);
      case NmSegment(b) => NmFrame(cat, p, i, path, cmd, b);
      case UnknownSegment =>
    }
  }

  lemma FieldFrame(cat: Catalog, p: Plan, i: nat, path: Parser.Path, cmd: QueryCommand)
    requires ValidCatalog(cat) && PlanOk(cat, p) && i < |p.nodes| && |path| == 1
    requires KindOf(cat, p.nodes[i].model.model, path[0]) == PlainSegment
    ensures Framed(p, Resolve(cat, p, i, path, cmd).plan, i)
  {
    FieldStepFacts(cat, p, i, path[0]);
    var s := FieldStep(cat, p, i, path[0]);
    TagFieldGrows(s.plan, s.node, cmd);
    GrownTrans(p, s.plan, TagField(s.plan, s.node, cmd));
  }

  lemma {:induction false} ForeignKeyFrame(cat: Catalog, p: Plan, i: nat, path: Parser.Path, cmd: QueryCommand, target: string)
    requires ValidCatalog(cat) && PlanOk(cat, p) && i < |p.nodes| && path != [] && target in cat
    requires KindOf(cat, p.nodes[i].model.model, path[0]) == ForeignKeySegment(target)
    ensures Framed(p, Resolve(cat, p, i, path, cmd).plan, i)
    decreases |path|, 1
  {
    ForeignKeyChild(cat, p, i, path[0], target);
    DescendFrame(cat, p, i, path[0], ForeignKeyStep(cat, p, i, path[0], target), path, cmd);
  }

  lemma {:induction false} BackrefFrame(cat: Catalog, p: Plan, i: nat, path: Parser.Path, cmd: QueryCommand, b: Backref)
    requires ValidCatalog(cat) && PlanOk(cat, p) && i < |p.nodes| && path != [] && b.source in cat
    requires KindOf(cat, p.nodes[i].model.model, path[0]) == BackrefSegment(b)
    ensures Framed(p, Resolve(cat, p, i, path, cmd).plan, i)
    decreases |path|, 1
  {
    BackrefChild(cat, p, i, path[0], b);
    DescendFrame(cat, p, i, path[0], BackrefStep(cat, p, i, path[0], b), path, cmd);
  }

  lemma {:induction false} NmFrame(cat: Catalog, p: Plan, i: nat, path: Parser.Path, cmd: QueryCommand, b: Backref)
    requires ValidCatalog(cat) && PlanOk(cat, p) && i < |p.nodes| && path != []
    requires b.source in cat && cat[b.source].kind == NmRelation
    requires b.fkField in cat[b.source].otherField
    requires cat[b.source].otherField[b.fkField] in cat[b.source].fields
    requires cat[b.source].fields[cat[b.source].otherField[b.fkField]].ForeignKey?
    requires KindOf(cat, p.nodes[i].model.model, path[0]) == NmSegment(b)
    ensures Framed(p, Resolve(cat, p, i, path, cmd).plan, i)
    decreases |path|, 1
  {
    NmChild(cat, p, i, path[0], b);
    DescendFrame(cat, p, i, path[0], NmStep(cat, p, i, path[0], b), path, cmd);
  }

  lemma {:induction false} DescendFrame(cat: Catalog, p: Plan, i: nat, head: string, s: Step, path: Parser.Path, cmd: QueryCommand)
    requires ValidCatalog(cat) && PlanOk(cat, s.plan) && i < |p.nodes| && path != []
    requires ChildStep(p, i, head, s)
    ensures Framed(p, Descend(cat, s, path, cmd).plan, i)
    decreases |path|, 0
  {
    TagNodeOk(cat, s.plan, s.node, cmd);
    TagNodeGrows(s.plan, s.node, cmd);
    var t := TagNode(s.plan, s.node, cmd);
    GrownTrans(p, s.plan, t);
    if |path| > 1 {
      ResolveFrame(cat, t, s.node, path[1..], cmd);
      GrownTrans(p, t, Resolve(cat, t, s.node, path[1..], cmd).plan);
    }
  }

  // -----------------------------------------------------------------------
  // A resolved path is in the tree, tagged

  /** The field node `get_field` finds at `i` for `head`, if it carries
      `cmd`. */
  function ExistingField(cat: Catalog, p: Plan, i: nat, head: string, cmd: QueryCommand): Option<Selected>
    requires PlanOk(cat, p) && i < |p.nodes|
  {
    match FieldNamed(p.nodes, p.fieldNodes, i, head)
    case None => None
    case Some(f) =>
      assert f in p.nodes[i].fields;
      if cmd in p.fieldNodes[f].commands then Some(FieldSelected(p.fieldNodes[f].field)) else None
  }

  /** What resolving `path` from node `i` hands back when it has nothing to
      add: every relation segment names an existing child tagged with `cmd`,
      and a last plain segment an existing field node tagged with `cmd`. */
  function Existing(cat: Catalog, p: Plan, i: nat, path: Parser.Path, cmd: QueryCommand): Option<Selected>
    requires ValidCatalog(cat) && PlanOk(cat, p) && i < |p.nodes|
    decreases |path|
  {
    if path == [] then None
    else
      match KindOf(cat, p.nodes[i].model.model, path[0])
      case PlainSegment => if |path| > 1 then None else ExistingField(cat, p, i, path[0], cmd)
      case UnknownSegment => None
      case _ =>
        match ChildNamed(p.nodes, i, path[0])
        case None => None
        case Some(c) =>
          assert c in p.nodes[i].children;
          if cmd !in p.nodes[c].commands then None
          else if |path| == 1 then Some(ModelSelected(p.nodes[c].model))
          else Existing(cat, p, c, path[1..], cmd)
  }

  /** A tag once given stays. */
  lemma TagKept(a: seq<QueryCommand>, b: seq<QueryCommand>, cmd: QueryCommand)
    requires a <= b && cmd in a
    ensures cmd in b
  {
    var k :| 0 <= k < |a| && a[k] == cmd;
    assert b[k] == cmd;
  }

  /** `get_field` finds the same tagged field node once the plan grew. */
  lemma ExistingFieldGrown(cat: Catalog, p: Plan, q: Plan, i: nat, head: string, cmd: QueryCommand)
    requires PlanOk(cat, p) && PlanOk(cat, q) && Grown(p, q) && i < |p.nodes|
    requires ExistingField(cat, p, i, head, cmd).Some?
    ensures ExistingField(cat, q, i, head, cmd) == ExistingField(cat, p, i, head, cmd)
  {
    var ids := p.nodes[i].fields;
    assert NodeGrown(p.nodes[i], q.nodes[i]);
    assert forall k :: 0 <= k < |ids| ==> ids[k] < |p.fieldNodes| && FieldGrown(p.fieldNodes[ids[k]], q.fieldNodes[ids[k]]);
    assert forall k :: 0 <= k < |q.nodes[i].fields| ==> q.nodes[i].fields[k] < |q.fieldNodes|;
    FirstFieldNamedExtend(p.fieldNodes, q.fieldNodes, ids, q.nodes[i].fields, head);
    var f := FieldNamed(p.nodes, p.fieldNodes, i, head).value;
    assert f in ids;
    assert FieldGrown(p.fieldNodes[f], q.fieldNodes[f]);
    TagKept(p.fieldNodes[f].commands, q.fieldNodes[f].commands, cmd);
  }

  /** `get_child` finds the same child once the plan grew. */
  lemma ChildGrown(p: Plan, q: Plan, i: nat, head: string)
    requires TreeShape(p.nodes) && TreeShape(q.nodes) && Grown(p, q) && i < |p.nodes|
    requires ChildNamed(p.nodes, i, head).Some?
    ensures ChildNamed(q.nodes, i, head) == ChildNamed(p.nodes, i, head)
    ensures ChildNamed(p.nodes, i, head).value < |p.nodes|
  {
    var ids := p.nodes[i].children;
    assert NodeGrown(p.nodes[i], q.nodes[i]);
    assert forall k :: 0 <= k < |ids| ==> ids[k] < |p.nodes| && NodeGrown(p.nodes[ids[k]], q.nodes[ids[k]]);
    assert forall k :: 0 <= k < |q.nodes[i].children| ==> q.nodes[i].children[k] < |q.nodes|;
    FirstNodeNamedExtend(p.nodes, q.nodes, ids, q.nodes[i].children, head);
    assert ChildNamed(p.nodes, i, head).value in ids;
  }

  /** What a path leads to in the tree stays where it is when the plan
      grows. */
  lemma {:induction false} ExistingGrown(cat: Catalog, p: Plan, q: Plan, i: nat, path: Parser.Path, cmd: QueryCommand)
    requires ValidCatalog(cat) && PlanOk(cat, p) && PlanOk(cat, q) && Grown(p, q) && i < |p.nodes|
    requires Existing(cat, p, i, path, cmd).Some?
    ensures Existing(cat, q, i, path, cmd) == Existing(cat, p, i, path, cmd)
    decreases |path|
  {
    var head := path[0];
    assert NodeGrown(p.nodes[i], q.nodes[i]);
    var k := KindOf(cat, p.nodes[i].model.model, head);
    if k.PlainSegment? {
      ExistingFieldGrown(cat, p, q, i, head, cmd);
    } else if !k.UnknownSegment? {
      ChildGrown(p, q, i, head);
      var c := ChildNamed(p.nodes, i, head).value;
      assert NodeGrown(p.nodes[c], q.nodes[c]);
      TagKept(p.nodes[c].commands, q.nodes[c].commands, cmd);
      if |path| > 1 {
        ExistingGrown(cat, p, q, c, path[1..], cmd);
      }
    }
  }

  /** After `_add_to_node(node, path, cmd)` succeeds, the path leads through
      the tree, tagged with `cmd` all the way, to what the call returned. */
  lemma {:induction false} ResolveRecords(cat: Catalog, p: Plan, i: nat, path: Parser.Path, cmd: QueryCommand)
    requires ValidCatalog(cat) && PlanOk(cat, p) && i < |p.nodes|
    ensures var r := Resolve(cat, p, i, path, cmd);
      r.result.Ok? ==> i < |r.plan.nodes| && Existing(cat, r.plan, i, path, cmd) == Some(r.result.value)
    decreases |path|, 3
  {
    ResolveFrame(cat, p, i, path, cmd);
    if path != [] {
      var head := path[0];
      var k := KindOf(cat, p.nodes[i].model.model, head);
      match k
      case PlainSegment =>
        if |path| == 1 {
          FieldRecords(cat, p, i, path, cmd);
        }
      case ForeignKeySegment(target) =>
        ForeignKeyRecords(cat, p, i, path, cmd, target);
      case BackrefSegment(b) =>
        BackrefRecords(cat, p, i, path, cmd, b);
      case NmSegment(b) =>
        NmRecords(cat, p, i, path, cmd, b);
      case UnknownSegment =>
    }
  }

  lemma {:induction false} ForeignKeyRecords(cat: Catalog, p: Plan, i: nat, path: Parser.Path, cmd: QueryCommand, target: string)
    requires ValidCatalog(cat) && PlanOk(cat, p) && i < |p.nodes| && path != []
    requires KindOf(cat, p.nodes[i].model.model, path[0]) == ForeignKeySegment(target)
    ensures var r := Resolve(cat, p, i, path, cmd);
      r.result.Ok? ==> i < |r.plan.nodes| && Existing(cat, r.plan, i, path, cmd) == Some(r.result.value)
    decreases |path|, 2
  {
    var k := ForeignKeySegment(target);
    ForeignKeyChild(cat, p, i, path[0], target);
    DescendRecords(cat, p, i, path[0], k, ForeignKeyStep(cat, p, i, path[0], target), path, cmd);
  }

  lemma {:induction false} BackrefRecords(cat: Catalog, p: Plan, i: nat, path: Parser.Path, cmd: QueryCommand, b: Backref)
    requires ValidCatalog(cat) && PlanOk(cat, p) && i < |p.nodes| && path != []
    requires KindOf(cat, p.nodes[i].model.model, path[0]) == BackrefSegment(b)
    ensures var r := Resolve(cat, p, i, path, cmd);
      r.result.Ok? ==> i < |r.plan.nodes| && Existing(cat, r.plan, i, path, cmd) == Some(r.result.value)
    decreases |path|, 2
  {
    var k := BackrefSegment(b);
    BackrefChild(cat, p, i, path[0], b);
    DescendRecords(cat, p, i, path[0], k, BackrefStep(cat, p, i, path[0], b), path, cmd);
  }

  lemma {:induction false} NmRecords(cat: Catalog, p: Plan, i: nat, path: Parser.Path, cmd: QueryCommand, b: Backref)
    requires ValidCatalog(cat) && PlanOk(cat, p) && i < |p.nodes| && path != []
    requires KindOf(cat, p.nodes[i].model.model, path[0]) == NmSegment(b)
    ensures var r := Resolve(cat, p, i, path, cmd);
      r.result.Ok? ==> i < |r.plan.nodes| && Existing(cat, r.plan, i, path, cmd) == Some(r.result.value)
    decreases |path|, 2
  {
    var k := NmSegment(b);
    NmChild(cat, p, i, path[0], b);
    DescendRecords(cat, p, i, path[0], k, NmStep(cat, p, i, path[0], b), path, cmd);
  }

  lemma FieldRecords(cat: Catalog, p: Plan, i: nat, path: Parser.Path, cmd: QueryCommand)
    requires ValidCatalog(cat) && PlanOk(cat, p) && i < |p.nodes| && |path| == 1
    requires KindOf(cat, p.nodes[i].model.model, path[0]) == PlainSegment
    ensures var r := Resolve(cat, p, i, path, cmd);
      r.result.Ok? && Existing(cat, r.plan, i, path, cmd) == Some(r.result.value)
  {
    var head := path[0];
    var s := FieldStep(cat, p, i, head);
    TagFieldOk(cat, s.plan, s.node, cmd);
    var q := TagField(s.plan, s.node, cmd);
    assert Resolve(cat, p, i, path, cmd) == Resolved(q, Ok(FieldSelected(q.fieldNodes[s.node].field)));
    TaggedFieldFound(cat, p, i, head, cmd);
    ExistingLastField(cat, q, i, path, cmd, s.node);
  }

  /** After the field step and the tag, the field node is found by name
      and carries the tag; node `i` keeps its model. */
  lemma TaggedFieldFound(cat: Catalog, p: Plan, i: nat, head: string, cmd: QueryCommand)
    requires ValidCatalog(cat) && PlanOk(cat, p) && i < |p.nodes|
    ensures var s := FieldStep(cat, p, i, head);
      var q := TagField(s.plan, s.node, cmd);
      && PlanOk(cat, q) && i < |q.nodes| && s.node < |q.fieldNodes|
      && q.nodes[i].model == p.nodes[i].model
      && FieldNamed(q.nodes, q.fieldNodes, i, head) == Some(s.node) && cmd in q.fieldNodes[s.node].commands
  {
    FieldStepFacts(cat, p, i, head);
    var s := FieldStep(cat, p, i, head);
    TagFieldOk(cat, s.plan, s.node, cmd);
    TagFieldGrows(s.plan, s.node, cmd);
    var q := TagField(s.plan, s.node, cmd);
    var ids := s.plan.nodes[i].fields;
    assert forall k :: 0 <= k < |ids| ==> ids[k] < |s.plan.fieldNodes|;
    FirstFieldNamedNames(s.plan.fieldNodes, q.fieldNodes, ids, head);
    assert NodeGrown(p.nodes[i], q.nodes[i]);
  }

  lemma ExistingLastField(cat: Catalog, p: Plan, i: nat, path: Parser.Path, cmd: QueryCommand, f: nat)
    requires ValidCatalog(cat) && PlanOk(cat, p) && i < |p.nodes| && |path| == 1
    requires KindOf(cat, p.nodes[i].model.model, path[0]) == PlainSegment
    requires FieldNamed(p.nodes, p.fieldNodes, i, path[0]) == Some(f) && f < |p.fieldNodes| && cmd in p.fieldNodes[f].commands
    ensures Existing(cat, p, i, path, cmd) == Some(FieldSelected(p.fieldNodes[f].field))
  {
  }

  /** The common tail of the relation cases: the child is tagged, and either
      handed back or the rest of the path resolved from it. */
  lemma {:induction false} DescendRecords(cat: Catalog, p: Plan, i: nat, head: string, k: SegmentKind, s: Step, path: Parser.Path, cmd: QueryCommand)
    requires ValidCatalog(cat) && PlanOk(cat, p) && PlanOk(cat, s.plan) && i < |p.nodes| && path != [] && path[0] == head
    requires k == KindOf(cat, p.nodes[i].model.model, head) && !k.PlainSegment? && !k.UnknownSegment?
    requires ChildStep(p, i, head, s)
    ensures var r := Descend(cat, s, path, cmd);
      r.result.Ok? ==> i < |r.plan.nodes| && Existing(cat, r.plan, i, path, cmd) == Some(r.result.value)
    decreases |path|, 1
  {
    DescendFrame(cat, p, i, head, s, path, cmd);
    TagNodeOk(cat, s.plan, s.node, cmd);
    TagNodeGrows(s.plan, s.node, cmd);
    var t := TagNode(s.plan, s.node, cmd);
    GrownTrans(p, s.plan, t);
    ChildGrown(s.plan, t, i, head);
    assert NodeGrown(p.nodes[i], t.nodes[i]);
    if |path| > 1 {
      ResolveRecords(cat, t, s.node, path[1..], cmd);
      TailRecords(cat, p, i, path, cmd, t, s.node);
    } else {
      ExistingLast(cat, t, i, path, cmd, s.node);
    }
  }

  lemma TailRecords(cat: Catalog, p: Plan, i: nat, path: Parser.Path, cmd: QueryCommand, t: Plan, c: nat)
    requires ValidCatalog(cat) && PlanOk(cat, p) && PlanOk(cat, t) && Grown(p, t) && i < |p.nodes| && |path| > 1
    requires !KindOf(cat, p.nodes[i].model.model, path[0]).PlainSegment?
    requires !KindOf(cat, p.nodes[i].model.model, path[0]).UnknownSegment?
    requires ChildNamed(t.nodes, i, path[0]) == Some(c) && c < |t.nodes| && cmd in t.nodes[c].commands
    requires var r := Resolve(cat, t, c, path[1..], cmd);
      r.result.Ok? ==> c < |r.plan.nodes| && Existing(cat, r.plan, c, path[1..], cmd) == Some(r.result.value)
    ensures var r := Resolve(cat, t, c, path[1..], cmd);
      r.result.Ok? ==> i < |r.plan.nodes| && Existing(cat, r.plan, i, path, cmd) == Some(r.result.value)
  {
    var r := Resolve(cat, t, c, path[1..], cmd);
    ResolveFrame(cat, t, c, path[1..], cmd);
    ChildGrown(t, r.plan, i, path[0]);
    assert NodeGrown(t.nodes[c], r.plan.nodes[c]);
    TagKept(t.nodes[c].commands, r.plan.nodes[c].commands, cmd);
    GrownTrans(p, t, r.plan);
    assert NodeGrown(p.nodes[i], r.plan.nodes[i]);
    ExistingStep(cat, r.plan, i, path, cmd, c);
  }

  /** A plain field with segments after it, and a segment that is neither
      a field nor a backref, raise an error naming the field and the model,
      and leave the plan as it was. */
  lemma ResolveRejects(cat: Catalog, p: Plan, i: nat, path: Parser.Path, cmd: QueryCommand)
    requires ValidCatalog(cat) && PlanOk(cat, p) && i < |p.nodes| && path != []
    ensures var m := p.nodes[i].model.model;
      var k := KindOf(cat, m, path[0]);
      && (k.PlainSegment? && |path| > 1 ==> Resolve(cat, p, i, path, cmd) == Resolved(p, Err(NoChildren(path[0], cat[m].name))))
      && (k.UnknownSegment? ==> Resolve(cat, p, i, path, cmd) == Resolved(p, Err(NoSuchField(path[0], cat[m].name))))
  {
  }

  /** Through an existing tagged child, a path leads where its tail leads
      from that child. */
  lemma ExistingStep(cat: Catalog, p: Plan, i: nat, path: Parser.Path, cmd: QueryCommand, c: nat)
    requires ValidCatalog(cat) && PlanOk(cat, p) && i < |p.nodes| && |path| > 1
    requires !KindOf(cat, p.nodes[i].model.model, path[0]).PlainSegment?
    requires !KindOf(cat, p.nodes[i].model.model, path[0]).UnknownSegment?
    requires ChildNamed(p.nodes, i, path[0]) == Some(c) && c < |p.nodes| && cmd in p.nodes[c].commands
    ensures Existing(cat, p, i, path, cmd) == Existing(cat, p, c, path[1..], cmd)
  {
  }

  lemma ExistingLast(cat: Catalog, p: Plan, i: nat, path: Parser.Path, cmd: QueryCommand, c: nat)
    requires ValidCatalog(cat) && PlanOk(cat, p) && i < |p.nodes| && |path| == 1
    requires !KindOf(cat, p.nodes[i].model.model, path[0]).PlainSegment?
    requires !KindOf(cat, p.nodes[i].model.model, path[0]).UnknownSegment?
    requires ChildNamed(p.nodes, i, path[0]) == Some(c) && c < |p.nodes| && cmd in p.nodes[c].commands
    ensures Existing(cat, p, i, path, cmd) == Some(ModelSelected(p.nodes[c].model))
  {
  }

  /** A path that is already in the tree, tagged with `cmd`, resolves to
      what it leads to and changes nothing: lookup by name comes before
      creation, and a tag already present is not added again. */
  lemma {:induction false} ExistingResolves(cat: Catalog, p: Plan, i: nat, path: Parser.Path, cmd: QueryCommand)
    requires ValidCatalog(cat) && PlanOk(cat, p) && i < |p.nodes|
    requires Existing(cat, p, i, path, cmd).Some?
    ensures Resolve(cat, p, i, path, cmd) == Resolved(p, Ok(Existing(cat, p, i, path, cmd).value))
    decreases |path|
  {
    var head := path[0];
    var k := KindOf(cat, p.nodes[i].model.model, head);
    if !k.PlainSegment? {
      var c := ChildNamed(p.nodes, i, head).value;
      assert c in p.nodes[i].children;
      if |path| > 1 {
        ExistingResolves(cat, p, c, path[1..], cmd);
      }
      ExistingDescends(cat, p, i, path, cmd, k, c);
    }
  }

  lemma ExistingDescends(cat: Catalog, p: Plan, i: nat, path: Parser.Path, cmd: QueryCommand, k: SegmentKind, c: nat)
    requires ValidCatalog(cat) && PlanOk(cat, p) && i < |p.nodes| && path != []
    requires k == KindOf(cat, p.nodes[i].model.model, path[0]) && !k.PlainSegment? && !k.UnknownSegment?
    requires ChildNamed(p.nodes, i, path[0]) == Some(c) && c < |p.nodes| && cmd in p.nodes[c].commands
    requires |path| > 1 ==> Existing(cat, p, c, path[1..], cmd).Some?
    requires |path| > 1 ==> Resolve(cat, p, c, path[1..], cmd) == Resolved(p, Ok(Existing(cat, p, c, path[1..], cmd).value))
    ensures Existing(cat, p, i, path, cmd).Some?
    ensures Resolve(cat, p, i, path, cmd) == Resolved(p, Ok(Existing(cat, p, i, path, cmd).value))
  {
    assert Descend(cat, Step(p, c), path, cmd) == Resolved(p, Ok(Existing(cat, p, i, path, cmd).value));
  }

  /** Re-resolving a path that was just resolved adds no node, field node,
      join or tag and returns the same value. */
  lemma ResolveIdempotent(cat: Catalog, p: Plan, i: nat, path: Parser.Path, cmd: QueryCommand)
    requires ValidCatalog(cat) && PlanOk(cat, p) && i < |p.nodes|
    ensures var r := Resolve(cat, p, i, path, cmd);
      r.result.Ok? ==> i < |r.plan.nodes| && Resolve(cat, r.plan, i, path, cmd) == r
  {
    var r := Resolve(cat, p, i, path, cmd);
    if r.result.Ok? {
      ResolveRecords(cat, p, i, path, cmd);
      ResolveFrame(cat, p, i, path, cmd);
      ExistingResolves(cat, r.plan, i, path, cmd);
    }
  }

  // -----------------------------------------------------------------------
  // The fields of a where clause

  /** The fields of a comparison list, in order. */
  function AllComparisonFields(cs: seq<Parser.Comparison>): seq<Parser.Path>
  {
    if cs == [] then [] else ComparisonFields(cs[0]) + AllComparisonFields(cs[1..])
  }

  lemma {:induction false} AllComparisonFieldsAppend(cs: seq<Parser.Comparison>, ds: seq<Parser.Comparison>)
    ensures AllComparisonFields(cs + ds) == AllComparisonFields(cs) + AllComparisonFields(ds)
  {
    if cs == [] {
      assert cs + ds == ds;
    } else {
      assert (cs + ds)[0] == cs[0];
      assert (cs + ds)[1..] == cs[1..] + ds;
      AllComparisonFieldsAppend(cs[1..], ds);
    }
  }

  /** `_expression_fields` lists, comparison by comparison from left to
      right, the field of each comparison and then its second operand when
      that is a field. */
  lemma {:induction false} ExpressionFieldsInOrder(e: Parser.Expression)
    ensures ExpressionFields(e) == AllComparisonFields(Comparisons(e))
  {
    match e
    case ComparisonExpr(c) =>
      assert [c][1..] == [];
    case LogicalExpr(l, _, r) =>
      ExpressionFieldsInOrder(l);
      ExpressionFieldsInOrder(r);
      AllComparisonFieldsAppend(Comparisons(l), Comparisons(r));
  }

  lemma {:induction false} AllComparisonFieldsMembers(cs: seq<Parser.Comparison>, p: Parser.Path)
    ensures p in AllComparisonFields(cs) <==> exists k :: 0 <= k < |cs| && p in ComparisonFields(cs[k])
  {
    if cs != [] {
      AllComparisonFieldsMembers(cs[1..], p);
      if p in ComparisonFields(cs[0]) {
        assert 0 < |cs| && p in ComparisonFields(cs[0]);
      } else if p in AllComparisonFields(cs[1..]) {
        var k :| 0 <= k < |cs[1..]| && p in ComparisonFields(cs[1..][k]);
        assert p in ComparisonFields(cs[k + 1]);
      } else {
        forall k | 0 <= k < |cs|
          ensures p !in ComparisonFields(cs[k])
        {
          if k > 0 {
            assert cs[k] == cs[1..][k - 1];
          }
        }
      }
    }
  }

  /** A path is among the where fields exactly when some comparison has it
      as its field, or as a second operand that is a field. */
  lemma {:induction false} ExpressionFieldsMembers(e: Parser.Expression, p: Parser.Path)
    ensures p in ExpressionFields(e) <==>
      exists c :: c in Comparisons(e) &&
        (p == c.first || (c.second.FieldOperand? && c.second.path != [] && p == c.second.path))
  {
    var cs := Comparisons(e);
    ExpressionFieldsInOrder(e);
    AllComparisonFieldsMembers(cs, p);
    if p in ExpressionFields(e) {
      var k :| 0 <= k < |cs| && p in ComparisonFields(cs[k]);
      assert cs[k] in cs;
    } else {
      forall c | c in cs
        ensures !(p == c.first || (c.second.FieldOperand? && c.second.path != [] && p == c.second.path))
      {
        var k :| 0 <= k < |cs| && cs[k] == c;
      }
    }
  }

  // -----------------------------------------------------------------------
  // What each kind of relation adds

  /** A relation segment already in the tree is reused: nothing is added
      and no join is made. */
  lemma RelationStepReuses(cat: Catalog, p: Plan, i: nat, head: string, k: SegmentKind)
    requires ValidCatalog(cat) && PlanOk(cat, p) && i < |p.nodes|
    requires k == KindOf(cat, p.nodes[i].model.model, head) && !k.PlainSegment? && !k.UnknownSegment?
    requires ChildNamed(p.nodes, i, head).Some?
    ensures var c := ChildNamed(p.nodes, i, head).value;
      match k
      case ForeignKeySegment(target) => ForeignKeyStep(cat, p, i, head, target) == Step(p, c)
      case BackrefSegment(b) => BackrefStep(cat, p, i, head, b) == Step(p, c)
      case NmSegment(b) => NmStep(cat, p, i, head, b) == Step(p, c)
  {
  }

  /** A new n:1 child: a node named after the foreign key, bound to the
      target model (the class itself the first time it joins the query, an
      alias after that), with one join on foreign key = primary key. */
  lemma ForeignKeyStepAdds(cat: Catalog, p: Plan, i: nat, head: string, target: string)
    requires ValidCatalog(cat) && PlanOk(cat, p) && i < |p.nodes| && target in cat
    requires ChildNamed(p.nodes, i, head).None?
    ensures var s := ForeignKeyStep(cat, p, i, head, target);
      var from := p.nodes[i].model;
      var to := s.plan.nodes[s.node].model;
      && s.node == |p.nodes| && s.plan.nodes[s.node] == FreshNode(head, to, None, Some(i))
      && to.model == target && (to.Canonical? <==> target !in p.usedModels) && target in s.plan.usedModels
      && s.plan.joins == p.joins + [Join(from, to, KeyEquals(FieldRef(from, head), FieldRef(to, cat[target].primaryKey)))]
  {
  }

  /** The join a new n:1 child adds is the one builder.py:95-101 writes,
      with the foreign key taken from the class, exactly when the node it
      hangs from is bound to the class itself rather than to an alias. */
  lemma ForeignKeyStepAsWritten(cat: Catalog, p: Plan, i: nat, head: string, target: string)
    requires ValidCatalog(cat) && PlanOk(cat, p) && i < |p.nodes| && target in cat
    requires ChildNamed(p.nodes, i, head).None?
    ensures var s := ForeignKeyStep(cat, p, i, head, target);
      var from := p.nodes[i].model;
      var to := s.plan.nodes[s.node].model;
      (s.plan.joins == p.joins + [Join(from, to, ForeignKeyConditionAsWritten(from, head, to, cat[target].primaryKey))])
        <==> from.Canonical?
  {
    var s := ForeignKeyStep(cat, p, i, head, target);
    var from := p.nodes[i].model;
    var to := s.plan.nodes[s.node].model;
    ForeignKeyStepAdds(cat, p, i, head, target);
    ForeignKeyConditionAgrees(from, head, to, cat[target].primaryKey);
    if s.plan.joins == p.joins + [Join(from, to, ForeignKeyConditionAsWritten(from, head, to, cat[target].primaryKey))] {
      assert s.plan.joins[|p.joins|] == Join(from, to, ForeignKeyConditionAsWritten(from, head, to, cat[target].primaryKey));
    }
  }

  /** A new 1:n child: a node named after the backref, bound to the model
      declaring the foreign key, with one join on that foreign key. */
  lemma BackrefStepAdds(cat: Catalog, p: Plan, i: nat, head: string, b: Backref)
    requires ValidCatalog(cat) && PlanOk(cat, p) && i < |p.nodes| && b.source in cat
    requires ChildNamed(p.nodes, i, head).None?
    ensures var s := BackrefStep(cat, p, i, head, b);
      var to := s.plan.nodes[s.node].model;
      && s.node == |p.nodes| && s.plan.nodes[s.node] == FreshNode(head, to, None, Some(i))
      && to.model == b.source && (to.Canonical? <==> b.source !in p.usedModels) && b.source in s.plan.usedModels
      && s.plan.joins == p.joins + [Join(p.nodes[i].model, to, ForeignKeyOn(FieldRef(to, b.fkField)))]
  {
  }

  /** A new n:m child: a node named after the backref, bound to the model
      at the far end of the junction and shadowed by the junction's other
      foreign key, reached by two joins that chain the node's model, the
      junction and the far model. */
  lemma NmStepAdds(cat: Catalog, p: Plan, i: nat, head: string, b: Backref)
    requires ValidCatalog(cat) && PlanOk(cat, p) && i < |p.nodes|
    requires b.source in cat && cat[b.source].kind == NmRelation
    requires b.fkField in cat[b.source].otherField
    requires cat[b.source].otherField[b.fkField] in cat[b.source].fields
    requires cat[b.source].fields[cat[b.source].otherField[b.fkField]].ForeignKey?
    requires ChildNamed(p.nodes, i, head).None?
    ensures var s := NmStep(cat, p, i, head, b);
      var f2 := cat[b.source].otherField[b.fkField];
      var far := cat[b.source].fields[f2].target;
      var to := s.plan.nodes[s.node].model;
      && s.node == |p.nodes| && s.plan.nodes[s.node] == FreshNode(head, to, Some(f2), Some(i))
      && to.model == far && far in s.plan.usedModels && b.source in s.plan.usedModels
      && (to.Canonical? <==> far !in p.usedModels && far != b.source)
      && |s.plan.joins| == |p.joins| + 2 && s.plan.joins[..|p.joins|] == p.joins
      && var j1 := s.plan.joins[|p.joins|]; var j2 := s.plan.joins[|p.joins| + 1];
         && j1.source == p.nodes[i].model && j1.target.model == b.source
         && (j1.target.Canonical? <==> b.source !in p.usedModels)
         && j1.on == ForeignKeyOn(FieldRef(j1.target, b.fkField))
         && j2.source == j1.target && j2.target == to
         && j2.on == KeyEquals(FieldRef(j1.target, f2), FieldRef(to, cat[far].primaryKey))
  {
  }

  // -----------------------------------------------------------------------
  // A clause: every path from the root

  /** A clause loop only grows the plan and never tags the root. */
  lemma {:induction false} ResolveAllFrame(cat: Catalog, p: Plan, paths: seq<Parser.Path>, cmd: QueryCommand)
    requires ValidCatalog(cat) && PlanOk(cat, p)
    ensures Framed(p, ResolveAll(cat, p, paths, cmd).plan, 0)
    decreases |paths|
  {
    if paths != [] {
      var init := paths[..|paths| - 1];
      ResolveAllFrame(cat, p, init, cmd);
      var prior := ResolveAll(cat, p, init, cmd);
      if prior.result.Ok? {
        ResolveFrame(cat, prior.plan, 0, paths[|paths| - 1], cmd);
        GrownTrans(p, prior.plan, Resolve(cat, prior.plan, 0, paths[|paths| - 1], cmd).plan);
      }
    }
  }

  /** Paths `paths` lead from the root, tagged with `cmd`, to `vs`, one
      value per path; defined, like the clause loop, from the last path
      back. */
  predicate AllExisting(cat: Catalog, p: Plan, paths: seq<Parser.Path>, cmd: QueryCommand, vs: seq<Selected>)
    requires ValidCatalog(cat) && PlanOk(cat, p)
    decreases |paths|
  {
    && |vs| == |paths|
    && (paths != [] ==>
          && AllExisting(cat, p, paths[..|paths| - 1], cmd, vs[..|paths| - 1])
          && Existing(cat, p, 0, paths[|paths| - 1], cmd) == Some(vs[|paths| - 1]))
  }

  lemma {:induction false} AllExistingGrown(cat: Catalog, p: Plan, q: Plan, paths: seq<Parser.Path>, cmd: QueryCommand, vs: seq<Selected>)
    requires ValidCatalog(cat) && PlanOk(cat, p) && PlanOk(cat, q) && Grown(p, q)
    requires AllExisting(cat, p, paths, cmd, vs)
    ensures AllExisting(cat, q, paths, cmd, vs)
    decreases |paths|
  {
    if paths != [] {
      var n := |paths| - 1;
      AllExistingGrown(cat, p, q, paths[..n], cmd, vs[..n]);
      ExistingGrown(cat, p, q, 0, paths[n], cmd);
    }
  }

  /** After a clause loop succeeds, each of its paths leads from the root,
      tagged with the clause's command, to the value the loop collected for
      it, in clause order. */
  lemma {:induction false} ResolveAllRecords(cat: Catalog, p: Plan, paths: seq<Parser.Path>, cmd: QueryCommand)
    requires ValidCatalog(cat) && PlanOk(cat, p)
    ensures var r := ResolveAll(cat, p, paths, cmd);
      r.result.Ok? ==> AllExisting(cat, r.plan, paths, cmd, r.result.value)
    decreases |paths|
  {
    var r := ResolveAll(cat, p, paths, cmd);
    if paths != [] {
      var n := |paths| - 1;
      var init := paths[..n];
      ResolveAllRecords(cat, p, init, cmd);
      var prior := ResolveAll(cat, p, init, cmd);
      if prior.result.Ok? {
        ResolveAllStep(cat, p, paths, cmd, n);
        assert paths[..n + 1] == paths;
        var last := Resolve(cat, prior.plan, 0, paths[n], cmd);
        if last.result.Ok? {
          ResolveFrame(cat, prior.plan, 0, paths[n], cmd);
          ResolveRecords(cat, prior.plan, 0, paths[n], cmd);
          AllExistingGrown(cat, prior.plan, last.plan, init, cmd, prior.result.value);
          assert prior.result.value + [last.result.value] == r.result.value;
        }
      }
    }
  }

  /** One more path that changes nothing extends the collected values. */
  lemma ResolveAllSame(cat: Catalog, p: Plan, paths: seq<Parser.Path>, cmd: QueryCommand, vs: seq<Selected>, v: Selected)
    requires ValidCatalog(cat) && PlanOk(cat, p) && paths != []
    requires ResolveAll(cat, p, paths[..|paths| - 1], cmd) == Resolved(p, Ok(vs))
    requires Resolve(cat, p, 0, paths[|paths| - 1], cmd) == Resolved(p, Ok(v))
    ensures ResolveAll(cat, p, paths, cmd) == Resolved(p, Ok(vs + [v]))
  {
    ResolveAllStep(cat, p, paths, cmd, |paths| - 1);
    assert paths[..|paths|] == paths;
  }

  /** Paths that are all in the tree, tagged, resolve to what they lead to
      and change nothing. */
  lemma {:induction false} ExistingAllResolve(cat: Catalog, p: Plan, paths: seq<Parser.Path>, cmd: QueryCommand, vs: seq<Selected>)
    requires ValidCatalog(cat) && PlanOk(cat, p)
    requires AllExisting(cat, p, paths, cmd, vs)
    ensures ResolveAll(cat, p, paths, cmd) == Resolved(p, Ok(vs))
    decreases |paths|
  {
    if paths != [] {
      var n := |paths| - 1;
      ExistingAllResolve(cat, p, paths[..n], cmd, vs[..n]);
      ExistingResolves(cat, p, 0, paths[n], cmd);
      ResolveAllSame(cat, p, paths, cmd, vs[..n], vs[n]);
      SplitLast(vs);
    }
  }

  /** Running a clause loop a second time adds nothing and collects the
      same values. */
  lemma ResolveAllIdempotent(cat: Catalog, p: Plan, paths: seq<Parser.Path>, cmd: QueryCommand)
    requires ValidCatalog(cat) && PlanOk(cat, p)
    ensures var r := ResolveAll(cat, p, paths, cmd);
      r.result.Ok? ==> ResolveAll(cat, r.plan, paths, cmd) == r
  {
    var r := ResolveAll(cat, p, paths, cmd);
    if r.result.Ok? {
      ResolveAllRecords(cat, p, paths, cmd);
      ExistingAllResolve(cat, r.plan, paths, cmd, r.result.value);
    }
  }
}
