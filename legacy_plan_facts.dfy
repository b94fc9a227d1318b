/** What `_add_to_node` of server/query_builder.py promises, proved about
    the plan functions of `LegacyQueryBuilder`: planning only ever grows
    the tree, the joins and `used_models`; a resolved path can be found
    again in the tree; resolving it a second time changes nothing; a field
    name is listed once; and each kind of segment adds the child and joins
    it is meant to. */
module LegacyPlanFacts {
  import opened Wrappers
  import opened ModelRegister
  import opened Peewee
  import opened LegacyQueryBuilder
  import QB = QueryBuilder
  import Parser

  // -----------------------------------------------------------------------
  // Planning only grows the plan

  /** A node after more planning: the same name, model and parent, and
      lists that have only been appended to. */
  predicate NodeGrown(n: LegacyNode, n': LegacyNode)
  {
    && n'.name == n.name && n'.model == n.model && n'.parent == n.parent
    && n.children <= n'.children && n.fields <= n'.fields
  }

  /** `q` is `p` after more planning: no node, join or used model removed or
      changed, only new ones appended and lists extended. */
  predicate Grown(p: LegacyPlan, q: LegacyPlan)
  {
    && |p.nodes| <= |q.nodes|
    && (forall j :: 0 <= j < |p.nodes| ==> NodeGrown(p.nodes[j], q.nodes[j]))
    && p.usedModels <= q.usedModels && p.joins <= q.joins && p.aliases <= q.aliases
  }

  lemma GrownTrans(p: LegacyPlan, q: LegacyPlan, r: LegacyPlan)
    requires Grown(p, q) && Grown(q, r)
    ensures Grown(p, r)
  {
    forall j | 0 <= j < |p.nodes|
      ensures NodeGrown(p.nodes[j], r.nodes[j])
    {
      assert NodeGrown(p.nodes[j], q.nodes[j]) && NodeGrown(q.nodes[j], r.nodes[j]);
    }
  }

  /** An element of a list stays in every extension of it. */
  lemma PrefixKeeps<T>(a: seq<T>, b: seq<T>, x: T)
    requires a <= b && x in a
    ensures x in b
  {
    var k :| 0 <= k < |a| && a[k] == x;
    assert b[k] == x;
  }

  /** What a relation step hands back: the first child of `i` named `head`,
      found or appended, placed after `i`. */
  predicate ChildStep(p: LegacyPlan, i: nat, head: string, s: Step)
  {
    && Grown(p, s.plan) && TreeShape(s.plan.nodes) && i < |p.nodes| && i < s.node < |s.plan.nodes|
    && ChildNamed(s.plan.nodes, i, head) == Some(s.node)
  }

  /** Appending a child to `i` changes node `i` only in its child list. */
  lemma AppendChildGrows(nodes: seq<LegacyNode>, i: nat, head: string, ref: ModelRef)
    requires i < |nodes|
    ensures var nodes' := WithChild(nodes, i, head, ref);
      forall j :: 0 <= j < |nodes| ==> NodeGrown(nodes[j], nodes'[j])
  {
    WithChildKeeps(nodes, i, head, ref);
  }

  /** `add_child` of a name `i` has no child of yet makes the new node the
      first child of that name. */
  lemma AppendNewChild(p: LegacyPlan, p1: LegacyPlan, i: nat, head: string, ref: ModelRef)
    requires TreeShape(p.nodes) && i < |p.nodes| && ChildNamed(p.nodes, i, head).None?
    requires p1.nodes == p.nodes
    requires p.usedModels <= p1.usedModels && p.joins <= p1.joins && p.aliases <= p1.aliases
    ensures ChildStep(p, i, head, AppendChild(p1, i, head, ref))
  {
    var s := AppendChild(p1, i, head, ref);
    var nodes' := s.plan.nodes;
    AppendChildGrows(p.nodes, i, head, ref);
    WithChildShape(p.nodes, i, head, ref);
    var kids := p.nodes[i].children;
    assert forall k :: 0 <= k < |kids| ==> kids[k] < |p.nodes|;
    assert forall k :: 0 <= k < |kids| ==> NodeGrown(p.nodes[kids[k]], nodes'[kids[k]]);
    FirstNamedAppend(p.nodes, nodes', kids, |p.nodes|, head);
  }

  /** An existing child comes after its parent. */
  lemma FoundChild(p: LegacyPlan, i: nat, head: string)
    requires TreeShape(p.nodes) && i < |p.nodes| && ChildNamed(p.nodes, i, head).Some?
    ensures ChildStep(p, i, head, Step(p, ChildNamed(p.nodes, i, head).value))
  {
    var c := ChildNamed(p.nodes, i, head).value;
    var k :| 0 <= k < |p.nodes[i].children| && p.nodes[i].children[k] == c;
  }

  lemma ForeignKeyChild(cat: Catalog, p: LegacyPlan, i: nat, head: string, target: string)
    requires ValidCatalog(cat) && PlanOk(cat, p) && i < |p.nodes| && target in cat
    ensures ChildStep(p, i, head, ForeignKeyStep(cat, p, i, head, target))
  {
    match ChildNamed(p.nodes, i, head)
    case Some(c) => FoundChild(p, i, head);
    case None =>
      var from := p.nodes[i].model;
      var j := JoinModel(p.usedModels, p.aliases, target);
      var join := Join(from, j.ref, QB.ForeignKeyCondition(from, head, j.ref, cat[target].primaryKey));
      AppendNewChild(p, p.(usedModels := j.usedModels, aliases := j.aliases, joins := p.joins + [join]), i, head, j.ref);
  }

  lemma BackrefChild(cat: Catalog, p: LegacyPlan, i: nat, head: string, b: Backref)
    requires ValidCatalog(cat) && PlanOk(cat, p) && i < |p.nodes| && b.source in cat
    ensures ChildStep(p, i, head, BackrefStep(cat, p, i, head, b))
  {
    match ChildNamed(p.nodes, i, head)
    case Some(c) => FoundChild(p, i, head);
    case None =>
      var j := JoinModel(p.usedModels, p.aliases, b.source);
      var join := Join(p.nodes[i].model, j.ref, ForeignKeyOn(FieldRef(j.ref, b.fkField)));
      AppendNewChild(p, p.(usedModels := j.usedModels, aliases := j.aliases, joins := p.joins + [join]), i, head, j.ref);
  }

  lemma NmChild(cat: Catalog, p: LegacyPlan, i: nat, head: string, b: Backref)
    requires ValidCatalog(cat) && PlanOk(cat, p) && i < |p.nodes|
    requires b.source in cat && cat[b.source].kind == NmRelation
    requires b.fkField in cat[b.source].otherField
    requires cat[b.source].otherField[b.fkField] in cat[b.source].fields
    requires cat[b.source].fields[cat[b.source].otherField[b.fkField]].ForeignKey?
    ensures ChildStep(p, i, head, NmStep(cat, p, i, head, b))
  {
    match ChildNamed(p.nodes, i, head)
    case Some(c) => FoundChild(p, i, head);
    case None =>
      var (f2, far) := QB.FarSide(cat, b);
      var jr := JoinModel(p.usedModels, p.aliases, b.source);
      var jm := JoinModel(jr.usedModels, jr.aliases, far);
      var join1 := Join(p.nodes[i].model, jr.ref, ForeignKeyOn(FieldRef(jr.ref, b.fkField)));
      var join2 := Join(jr.ref, jm.ref, KeyEquals(FieldRef(jr.ref, f2), FieldRef(jm.ref, cat[far].primaryKey)));
      AppendNewChild(p, p.(usedModels := jm.usedModels, aliases := jm.aliases, joins := p.joins + [join1, join2]), i, head, jm.ref);
  }

  /** The plain-field step lists the name at `i`, leaving everything else
      as it was. */
  lemma AddFieldGrows(p: LegacyPlan, i: nat, head: string)
    requires i < |p.nodes|
    ensures Grown(p, AddField(p, i, head))
  {
    if head !in p.nodes[i].fields {
      WithFieldKeeps(p.nodes, i, head);
    }
  }

  // -----------------------------------------------------------------------
  // The frame of `_add_to_node`

  /** Resolving a path only grows the plan. */
  lemma {:induction false} ResolveGrows(cat: Catalog, p: LegacyPlan, i: nat, path: Parser.Path)
    requires ValidCatalog(cat) && PlanOk(cat, p) && i < |p.nodes|
    ensures Grown(p, Resolve(cat, p, i, path).plan)
    decreases |path|, 2
  {
    if path != [] {
      var head := path[0];
      match QB.KindOf(cat, p.nodes[i].model.model, head)
      case PlainSegment =>
        if |path| == 1 {
          AddFieldGrows(p, i, head);
        }
      case ForeignKeySegment(target) => ForeignKeyGrows(cat, p, i, path, target);
      case BackrefSegment(b) => BackrefGrows(cat, p, i, path, b);
      case NmSegment(b) => NmGrows(cat, p, i, path, b);
      case UnknownSegment =>
    }
  }

  lemma {:induction false} ForeignKeyGrows(cat: Catalog, p: LegacyPlan, i: nat, path: Parser.Path, target: string)
    requires ValidCatalog(cat) && PlanOk(cat, p) && i < |p.nodes| && path != [] && target in cat
    requires QB.KindOf(cat, p.nodes[i].model.model, path[0]) == QB.ForeignKeySegment(target)
    ensures Grown(p, Resolve(cat, p, i, path).plan)
    decreases |path|, 1
  {
    ForeignKeyChild(cat, p, i, path[0], target);
    DescendGrows(cat, p, i, path[0], ForeignKeyStep(cat, p, i, path[0], target), path);
  }

  lemma {:induction false} BackrefGrows(cat: Catalog, p: LegacyPlan, i: nat, path: Parser.Path, b: Backref)
    requires ValidCatalog(cat) && PlanOk(cat, p) && i < |p.nodes| && path != [] && b.source in cat
    requires QB.KindOf(cat, p.nodes[i].model.model, path[0]) == QB.BackrefSegment(b)
    ensures Grown(p, Resolve(cat, p, i, path).plan)
    decreases |path|, 1
  {
    BackrefChild(cat, p, i, path[0], b);
    DescendGrows(cat, p, i, path[0], BackrefStep(cat, p, i, path[0], b), path);
  }

  lemma {:induction false} NmGrows(cat: Catalog, p: LegacyPlan, i: nat, path: Parser.Path, b: Backref)
    requires ValidCatalog(cat) && PlanOk(cat, p) && i < |p.nodes| && path != []
    requires b.source in cat && cat[b.source].kind == NmRelation
    requires b.fkField in cat[b.source].otherField
    requires cat[b.source].otherField[b.fkField] in cat[b.source].fields
    requires cat[b.source].fields[cat[b.source].otherField[b.fkField]].ForeignKey?
    requires QB.KindOf(cat, p.nodes[i].model.model, path[0]) == QB.NmSegment(b)
    ensures Grown(p, Resolve(cat, p, i, path).plan)
    decreases |path|, 1
  {
    NmChild(cat, p, i, path[0], b);
    DescendGrows(cat, p, i, path[0], NmStep(cat, p, i, path[0], b), path);
  }

  lemma {:induction false} DescendGrows(cat: Catalog, p: LegacyPlan, i: nat, head: string, s: Step, path: Parser.Path)
    requires ValidCatalog(cat) && PlanOk(cat, s.plan) && path != []
    requires ChildStep(p, i, head, s)
    ensures Grown(p, Descend(cat, s, path).plan)
    decreases |path|, 0
  {
    if |path| > 1 {
      ResolveGrows(cat, s.plan, s.node, path[1..]);
      GrownTrans(p, s.plan, Resolve(cat, s.plan, s.node, path[1..]).plan);
    }
  }

  // -----------------------------------------------------------------------
  // A resolved path is in the tree

  /** What resolving `path` from node `i` hands back when it has nothing to
      add: every relation segment names an existing child, and a last plain
      segment is already in the node's field list. */
  function Existing(cat: Catalog, p: LegacyPlan, i: nat, path: Parser.Path): Option<Selected>
    requires ValidCatalog(cat) && PlanOk(cat, p) && i < |p.nodes|
    decreases |path|
  {
    if path == [] then None
    else
      match QB.KindOf(cat, p.nodes[i].model.model, path[0])
      case PlainSegment =>
        if |path| > 1 || path[0] !in p.nodes[i].fields then None
        else Some(FieldSelected(FieldRef(p.nodes[i].model, path[0])))
      case UnknownSegment => None
      case _ =>
        match ChildNamed(p.nodes, i, path[0])
        case None => None
        case Some(c) =>
          assert c in p.nodes[i].children;
          if |path| == 1 then Some(ModelSelected(p.nodes[c].model))
          else Existing(cat, p, c, path[1..])
  }

  /** `get_child` finds the same child once the plan grew. */
  lemma ChildGrown(p: LegacyPlan, q: LegacyPlan, i: nat, head: string)
    requires TreeShape(p.nodes) && TreeShape(q.nodes) && Grown(p, q) && i < |p.nodes|
    requires ChildNamed(p.nodes, i, head).Some?
    ensures ChildNamed(q.nodes, i, head) == ChildNamed(p.nodes, i, head)
    ensures ChildNamed(p.nodes, i, head).value < |p.nodes|
  {
    var ids := p.nodes[i].children;
    assert NodeGrown(p.nodes[i], q.nodes[i]);
    assert forall k :: 0 <= k < |ids| ==> ids[k] < |p.nodes| && NodeGrown(p.nodes[ids[k]], q.nodes[ids[k]]);
    assert forall k :: 0 <= k < |q.nodes[i].children| ==> q.nodes[i].children[k] < |q.nodes|;
    FirstNamedExtend(p.nodes, q.nodes, ids, q.nodes[i].children, head);
    assert ChildNamed(p.nodes, i, head).value in ids;
  }

  /** What a path leads to in the tree stays where it is when the plan
      grows. */
  lemma {:induction false} ExistingGrown(cat: Catalog, p: LegacyPlan, q: LegacyPlan, i: nat, path: Parser.Path)
    requires ValidCatalog(cat) && PlanOk(cat, p) && PlanOk(cat, q) && Grown(p, q) && i < |p.nodes|
    requires Existing(cat, p, i, path).Some?
    ensures Existing(cat, q, i, path) == Existing(cat, p, i, path)
    decreases |path|
  {
    var head := path[0];
    assert NodeGrown(p.nodes[i], q.nodes[i]);
    var k := QB.KindOf(cat, p.nodes[i].model.model, head);
    if k.PlainSegment? {
      PrefixKeeps(p.nodes[i].fields, q.nodes[i].fields, head);
    } else if !k.UnknownSegment? {
      ChildGrown(p, q, i, head);
      var c := ChildNamed(p.nodes, i, head).value;
      assert NodeGrown(p.nodes[c], q.nodes[c]);
      if |path| > 1 {
        ExistingGrown(cat, p, q, c, path[1..]);
      }
    }
  }

  /** After `_add_to_node(node, path)` succeeds, the path leads through the
      tree to what the call returned. */
  lemma {:induction false} ResolveRecords(cat: Catalog, p: LegacyPlan, i: nat, path: Parser.Path)
    requires ValidCatalog(cat) && PlanOk(cat, p) && i < |p.nodes|
    ensures var r := Resolve(cat, p, i, path);
      r.result.Ok? ==> i < |r.plan.nodes| && Existing(cat, r.plan, i, path) == Some(r.result.value)
    decreases |path|, 3
  {
    if path != [] {
      var head := path[0];
      var k := QB.KindOf(cat, p.nodes[i].model.model, head);
      match k
      case PlainSegment =>
        if |path| == 1 {
          AddFieldGrows(p, i, head);
          assert NodeGrown(p.nodes[i], AddField(p, i, head).nodes[i]);
        }
      case UnknownSegment =>
      case _ => RelationRecords(cat, p, i, path, k);
    }
  }

  lemma {:induction false} RelationRecords(cat: Catalog, p: LegacyPlan, i: nat, path: Parser.Path, k: QB.SegmentKind)
    requires ValidCatalog(cat) && PlanOk(cat, p) && i < |p.nodes| && path != []
    requires k == QB.KindOf(cat, p.nodes[i].model.model, path[0]) && !k.PlainSegment? && !k.UnknownSegment?
    ensures var r := Resolve(cat, p, i, path);
      r.result.Ok? ==> i < |r.plan.nodes| && Existing(cat, r.plan, i, path) == Some(r.result.value)
    decreases |path|, 2
  {
    var head := path[0];
    match k
    case ForeignKeySegment(target) =>
      ForeignKeyChild(cat, p, i, head, target);
      DescendRecords(cat, p, i, head, k, ForeignKeyStep(cat, p, i, head, target), path);
    case BackrefSegment(b) =>
      BackrefChild(cat, p, i, head, b);
      DescendRecords(cat, p, i, head, k, BackrefStep(cat, p, i, head, b), path);
    case NmSegment(b) =>
      NmChild(cat, p, i, head, b);
      DescendRecords(cat, p, i, head, k, NmStep(cat, p, i, head, b), path);
  }

  /** The common tail of the relation cases: the child is handed back, or
      the rest of the path resolved from it. */
  lemma {:induction false} DescendRecords(cat: Catalog, p: LegacyPlan, i: nat, head: string, k: QB.SegmentKind, s: Step, path: Parser.Path)
    requires ValidCatalog(cat) && PlanOk(cat, p) && PlanOk(cat, s.plan) && i < |p.nodes| && path != [] && path[0] == head
    requires k == QB.KindOf(cat, p.nodes[i].model.model, head) && !k.PlainSegment? && !k.UnknownSegment?
    requires ChildStep(p, i, head, s)
    ensures var r := Descend(cat, s, path);
      r.result.Ok? ==> i < |r.plan.nodes| && Existing(cat, r.plan, i, path) == Some(r.result.value)
    decreases |path|, 1
  {
    assert NodeGrown(p.nodes[i], s.plan.nodes[i]);
    if |path| > 1 {
      ResolveRecords(cat, s.plan, s.node, path[1..]);
      TailRecords(cat, p, i, path, s.plan, s.node);
    }
  }

  lemma TailRecords(cat: Catalog, p: LegacyPlan, i: nat, path: Parser.Path, t: LegacyPlan, c: nat)
    requires ValidCatalog(cat) && PlanOk(cat, p) && PlanOk(cat, t) && Grown(p, t) && i < |p.nodes| && |path| > 1
    requires !QB.KindOf(cat, p.nodes[i].model.model, path[0]).PlainSegment?
    requires !QB.KindOf(cat, p.nodes[i].model.model, path[0]).UnknownSegment?
    requires ChildNamed(t.nodes, i, path[0]) == Some(c) && c < |t.nodes|
    requires var r := Resolve(cat, t, c, path[1..]);
      r.result.Ok? ==> c < |r.plan.nodes| && Existing(cat, r.plan, c, path[1..]) == Some(r.result.value)
    ensures var r := Resolve(cat, t, c, path[1..]);
      r.result.Ok? ==> i < |r.plan.nodes| && Existing(cat, r.plan, i, path) == Some(r.result.value)
  {
    var r := Resolve(cat, t, c, path[1..]);
    ResolveGrows(cat, t, c, path[1..]);
    ChildGrown(t, r.plan, i, path[0]);
    GrownTrans(p, t, r.plan);
    assert NodeGrown(p.nodes[i], r.plan.nodes[i]);
    ExistingStep(cat, r.plan, i, path, c);
  }

  /** Through an existing child, a path leads where its tail leads from
      that child. */
  lemma ExistingStep(cat: Catalog, p: LegacyPlan, i: nat, path: Parser.Path, c: nat)
    requires ValidCatalog(cat) && PlanOk(cat, p) && i < |p.nodes| && |path| > 1
    requires !QB.KindOf(cat, p.nodes[i].model.model, path[0]).PlainSegment?
    requires !QB.KindOf(cat, p.nodes[i].model.model, path[0]).UnknownSegment?
    requires ChildNamed(p.nodes, i, path[0]) == Some(c) && c < |p.nodes|
    ensures Existing(cat, p, i, path) == Existing(cat, p, c, path[1..])
  {
  }

  /** A path that is already in the tree resolves to what it leads to and
      changes nothing: lookup by name comes before creation, and a field
      name already listed is not listed again. */
  lemma {:induction false} ExistingResolves(cat: Catalog, p: LegacyPlan, i: nat, path: Parser.Path)
    requires ValidCatalog(cat) && PlanOk(cat, p) && i < |p.nodes|
    requires Existing(cat, p, i, path).Some?
    ensures Resolve(cat, p, i, path) == Resolved(p, Ok(Existing(cat, p, i, path).value))
    decreases |path|
  {
    var head := path[0];
    var k := QB.KindOf(cat, p.nodes[i].model.model, head);
    if !k.PlainSegment? {
      var c := ChildNamed(p.nodes, i, head).value;
      assert c in p.nodes[i].children;
      if |path| > 1 {
        ExistingResolves(cat, p, c, path[1..]);
      }
      ExistingDescends(cat, p, i, path, k, c);
    }
  }

  lemma ExistingDescends(cat: Catalog, p: LegacyPlan, i: nat, path: Parser.Path, k: QB.SegmentKind, c: nat)
    requires ValidCatalog(cat) && PlanOk(cat, p) && i < |p.nodes| && path != []
    requires k == QB.KindOf(cat, p.nodes[i].model.model, path[0]) && !k.PlainSegment? && !k.UnknownSegment?
    requires ChildNamed(p.nodes, i, path[0]) == Some(c) && c < |p.nodes|
    requires |path| > 1 ==> Existing(cat, p, c, path[1..]).Some?
    requires |path| > 1 ==> Resolve(cat, p, c, path[1..]) == Resolved(p, Ok(Existing(cat, p, c, path[1..]).value))
    ensures Existing(cat, p, i, path).Some?
    ensures Resolve(cat, p, i, path) == Resolved(p, Ok(Existing(cat, p, i, path).value))
  {
    assert Descend(cat, Step(p, c), path) == Resolved(p, Ok(Existing(cat, p, i, path).value));
  }

  /** Re-resolving a path that was just resolved adds no node, field name
      or join and returns the same value. */
  lemma ResolveIdempotent(cat: Catalog, p: LegacyPlan, i: nat, path: Parser.Path)
    requires ValidCatalog(cat) && PlanOk(cat, p) && i < |p.nodes|
    ensures var r := Resolve(cat, p, i, path);
      r.result.Ok? ==> i < |r.plan.nodes| && Resolve(cat, r.plan, i, path) == r
  {
    var r := Resolve(cat, p, i, path);
    if r.result.Ok? {
      ResolveRecords(cat, p, i, path);
      ExistingResolves(cat, r.plan, i, path);
    }
  }

  // -----------------------------------------------------------------------
  // One segment at a time

  /** `if field_head not in node.fields`: listing a name twice lists it
      once, and the names of a node stay distinct. */
  lemma AddFieldOnce(cat: Catalog, p: LegacyPlan, i: nat, head: string)
    requires PlanOk(cat, p) && i < |p.nodes|
    ensures var q := AddField(p, i, head);
      && AddField(q, i, head) == q
      && Distinct(q.nodes[i].fields)
      && (head in p.nodes[i].fields ==> q == p)
      && (head !in p.nodes[i].fields ==> q.nodes[i].fields == p.nodes[i].fields + [head])
  {
    AddFieldOk(cat, p, i, head);
  }

  /** A plain field with segments after it, and a segment that is neither
      a field nor a backref, raise an error naming the field and the model,
      and leave the plan as it was. */
  lemma ResolveRejects(cat: Catalog, p: LegacyPlan, i: nat, path: Parser.Path)
    requires ValidCatalog(cat) && PlanOk(cat, p) && i < |p.nodes| && path != []
    ensures var m := p.nodes[i].model.model;
      var k := QB.KindOf(cat, m, path[0]);
      && (k.PlainSegment? && |path| > 1 ==> Resolve(cat, p, i, path) == Resolved(p, Err(NoChildren(path[0], cat[m].name))))
      && (k.UnknownSegment? ==> Resolve(cat, p, i, path) == Resolved(p, Err(NoSuchField(path[0], cat[m].name))))
      && (k.PlainSegment? && |path| == 1 ==>
            Resolve(cat, p, i, path) == Resolved(AddField(p, i, path[0]), Ok(FieldSelected(FieldRef(p.nodes[i].model, path[0])))))
  {
  }

  /** A relation segment already in the tree is reused: nothing is added
      and no join is made. */
  lemma RelationStepReuses(cat: Catalog, p: LegacyPlan, i: nat, head: string, k: QB.SegmentKind)
    requires ValidCatalog(cat) && PlanOk(cat, p) && i < |p.nodes|
    requires k == QB.KindOf(cat, p.nodes[i].model.model, head) && !k.PlainSegment? && !k.UnknownSegment?
    requires ChildNamed(p.nodes, i, head).Some?
    ensures var c := ChildNamed(p.nodes, i, head).value;
      match k
      case ForeignKeySegment(target) => ForeignKeyStep(cat, p, i, head, target) == Step(p, c)
      case BackrefSegment(b) => BackrefStep(cat, p, i, head, b) == Step(p, c)
      case NmSegment(b) => NmStep(cat, p, i, head, b) == Step(p, c)
  {
  }

  /** A new n:1 child: a node named after the foreign key, bound to the
      target model (the class itself the first time it joins the query, an
      alias after that), with one join on foreign key = primary key. */
  lemma ForeignKeyStepAdds(cat: Catalog, p: LegacyPlan, i: nat, head: string, target: string)
    requires ValidCatalog(cat) && PlanOk(cat, p) && i < |p.nodes| && target in cat
    requires ChildNamed(p.nodes, i, head).None?
    ensures var s := ForeignKeyStep(cat, p, i, head, target);
      var from := p.nodes[i].model;
      var to := s.plan.nodes[s.node].model;
      && s.node == |p.nodes| && s.plan.nodes[s.node] == FreshNode(head, to, Some(i))
      && to.model == target && (to.Canonical? <==> target !in p.usedModels) && target in s.plan.usedModels
      && s.plan.joins == p.joins + [Join(from, to, KeyEquals(FieldRef(from, head), FieldRef(to, cat[target].primaryKey)))]
  {
  }

  /** The join a new n:1 child adds is the one query_builder.py:82-90
      writes, with the foreign key taken from the class, exactly when the
      node it hangs from is bound to the class itself rather than to an
      alias. */
  lemma ForeignKeyStepAsWritten(cat: Catalog, p: LegacyPlan, i: nat, head: string, target: string)
    requires ValidCatalog(cat) && PlanOk(cat, p) && i < |p.nodes| && target in cat
    requires ChildNamed(p.nodes, i, head).None?
    ensures var s := ForeignKeyStep(cat, p, i, head, target);
      var from := p.nodes[i].model;
      var to := s.plan.nodes[s.node].model;
      (s.plan.joins == p.joins + [Join(from, to, QB.ForeignKeyConditionAsWritten(from, head, to, cat[target].primaryKey))])
        <==> from.Canonical?
  {
    var s := ForeignKeyStep(cat, p, i, head, target);
    var from := p.nodes[i].model;
    var to := s.plan.nodes[s.node].model;
    ForeignKeyStepAdds(cat, p, i, head, target);
    QB.ForeignKeyConditionAgrees(from, head, to, cat[target].primaryKey);
    if s.plan.joins == p.joins + [Join(from, to, QB.ForeignKeyConditionAsWritten(from, head, to, cat[target].primaryKey))] {
      assert s.plan.joins[|p.joins|] == Join(from, to, QB.ForeignKeyConditionAsWritten(from, head, to, cat[target].primaryKey));
    }
  }

  /** A new 1:n child: a node named after the backref, bound to the model
      declaring the foreign key, with one join on that foreign key. */
  lemma BackrefStepAdds(cat: Catalog, p: LegacyPlan, i: nat, head: string, b: Backref)
    requires ValidCatalog(cat) && PlanOk(cat, p) && i < |p.nodes| && b.source in cat
    requires ChildNamed(p.nodes, i, head).None?
    ensures var s := BackrefStep(cat, p, i, head, b);
      var to := s.plan.nodes[s.node].model;
      && s.node == |p.nodes| && s.plan.nodes[s.node] == FreshNode(head, to, Some(i))
      && to.model == b.source && (to.Canonical? <==> b.source !in p.usedModels) && b.source in s.plan.usedModels
      && s.plan.joins == p.joins + [Join(p.nodes[i].model, to, ForeignKeyOn(FieldRef(to, b.fkField)))]
  {
  }

  /** A new n:m child: a node named after the backref and bound to the
      model at the far end of the junction, with no shadow name kept,
      reached by two joins that chain the node's model, the junction and
      the far model. */
  lemma NmStepAdds(cat: Catalog, p: LegacyPlan, i: nat, head: string, b: Backref)
    requires ValidCatalog(cat) && PlanOk(cat, p) && i < |p.nodes|
    requires b.source in cat && cat[b.source].kind == NmRelation
    requires b.fkField in cat[b.source].otherField
    requires cat[b.source].otherField[b.fkField] in cat[b.source].fields
    requires cat[b.source].fields[cat[b.source].otherField[b.fkField]].ForeignKey?
    requires ChildNamed(p.nodes, i, head).None?
    ensures var s := NmStep(cat, p, i, head, b);
      var f2 := cat[b.source].otherField[b.fkField];
      var far := cat[b.source].fields[f2].target;
      var to := s.plan.nodes[s.node].model;
      && s.node == |p.nodes| && s.plan.nodes[s.node] == FreshNode(head, to, Some(i))
      && to.model == far && far in s.plan.usedModels && b.source in s.plan.usedModels
      && (to.Canonical? <==> far !in p.usedModels && far != b.source)
      && |s.plan.joins| == |p.joins| + 2 && s.plan.joins[..|p.joins|] == p.joins
      && var j1 := s.plan.joins[|p.joins|]; var j2 := s.plan.joins[|p.joins| + 1];
         && j1.source == p.nodes[i].model && j1.target.model == b.source
         && (j1.target.Canonical? <==> b.source !in p.usedModels)
         && j1.on == ForeignKeyOn(FieldRef(j1.target, b.fkField))
         && j2.source == j1.target && j2.target == to
         && j2.on == KeyEquals(FieldRef(j1.target, f2), FieldRef(to, cat[far].primaryKey))
  {
  }

  // -----------------------------------------------------------------------
  // A clause: every path from the root

  /** A clause loop only grows the plan. */
  lemma {:induction false} ResolveAllGrows(cat: Catalog, p: LegacyPlan, paths: seq<Parser.Path>)
    requires ValidCatalog(cat) && PlanOk(cat, p)
    ensures Grown(p, ResolveAll(cat, p, paths).plan)
    decreases |paths|
  {
    if paths != [] {
      var init := paths[..|paths| - 1];
      ResolveAllGrows(cat, p, init);
      var prior := ResolveAll(cat, p, init);
      if prior.result.Ok? {
        ResolveGrows(cat, prior.plan, 0, paths[|paths| - 1]);
        GrownTrans(p, prior.plan, Resolve(cat, prior.plan, 0, paths[|paths| - 1]).plan);
      }
    }
  }

  /** Paths `paths` lead from the root to `vs`, one value per path; defined,
      like the clause loop, from the last path back. */
  predicate AllExisting(cat: Catalog, p: LegacyPlan, paths: seq<Parser.Path>, vs: seq<Selected>)
    requires ValidCatalog(cat) && PlanOk(cat, p)
    decreases |paths|
  {
    && |vs| == |paths|
    && (paths != [] ==>
          && AllExisting(cat, p, paths[..|paths| - 1], vs[..|paths| - 1])
          && Existing(cat, p, 0, paths[|paths| - 1]) == Some(vs[|paths| - 1]))
  }

  lemma {:induction false} AllExistingGrown(cat: Catalog, p: LegacyPlan, q: LegacyPlan, paths: seq<Parser.Path>, vs: seq<Selected>)
    requires ValidCatalog(cat) && PlanOk(cat, p) && PlanOk(cat, q) && Grown(p, q)
    requires AllExisting(cat, p, paths, vs)
    ensures AllExisting(cat, q, paths, vs)
    decreases |paths|
  {
    if paths != [] {
      var n := |paths| - 1;
      AllExistingGrown(cat, p, q, paths[..n], vs[..n]);
      ExistingGrown(cat, p, q, 0, paths[n]);
    }
  }

  /** After a clause loop succeeds, each of its paths leads from the root to
      the value the loop collected for it, in clause order. */
  lemma {:induction false} ResolveAllRecords(cat: Catalog, p: LegacyPlan, paths: seq<Parser.Path>)
    requires ValidCatalog(cat) && PlanOk(cat, p)
    ensures var r := ResolveAll(cat, p, paths);
      r.result.Ok? ==> AllExisting(cat, r.plan, paths, r.result.value)
    decreases |paths|
  {
    var r := ResolveAll(cat, p, paths);
    if paths != [] {
      var n := |paths| - 1;
      var init := paths[..n];
      ResolveAllRecords(cat, p, init);
      var prior := ResolveAll(cat, p, init);
      if prior.result.Ok? {
        ResolveAllStep(cat, p, paths, n);
        assert paths[..n + 1] == paths;
        var last := Resolve(cat, prior.plan, 0, paths[n]);
        if last.result.Ok? {
          ResolveGrows(cat, prior.plan, 0, paths[n]);
          ResolveRecords(cat, prior.plan, 0, paths[n]);
          AllExistingGrown(cat, prior.plan, last.plan, init, prior.result.value);
          assert prior.result.value + [last.result.value] == r.result.value;
        }
      }
    }
  }

  /** One more path that changes nothing extends the collected values. */
  lemma ResolveAllSame(cat: Catalog, p: LegacyPlan, paths: seq<Parser.Path>, vs: seq<Selected>, v: Selected)
    requires ValidCatalog(cat) && PlanOk(cat, p) && paths != []
    requires ResolveAll(cat, p, paths[..|paths| - 1]) == Resolved(p, Ok(vs))
    requires Resolve(cat, p, 0, paths[|paths| - 1]) == Resolved(p, Ok(v))
    ensures ResolveAll(cat, p, paths) == Resolved(p, Ok(vs + [v]))
  {
    ResolveAllStep(cat, p, paths, |paths| - 1);
    assert paths[..|paths|] == paths;
  }

  /** Paths that are all in the tree resolve to what they lead to and
      change nothing. */
  lemma {:induction false} ExistingAllResolve(cat: Catalog, p: LegacyPlan, paths: seq<Parser.Path>, vs: seq<Selected>)
    requires ValidCatalog(cat) && PlanOk(cat, p)
    requires AllExisting(cat, p, paths, vs)
    ensures ResolveAll(cat, p, paths) == Resolved(p, Ok(vs))
    decreases |paths|
  {
    if paths != [] {
      var n := |paths| - 1;
      SplitLast(vs);
      ExistingAllResolve(cat, p, paths[..n], vs[..n]);
      ExistingResolves(cat, p, 0, paths[n]);
      ResolveAllSame(cat, p, paths, vs[..n], vs[n]);
    }
  }

  /** Running a clause loop a second time adds nothing and collects the
      same values. */
  lemma ResolveAllIdempotent(cat: Catalog, p: LegacyPlan, paths: seq<Parser.Path>)
    requires ValidCatalog(cat) && PlanOk(cat, p)
    ensures var r := ResolveAll(cat, p, paths);
      r.result.Ok? ==> ResolveAll(cat, r.plan, paths) == r
  {
    var r := ResolveAll(cat, p, paths);
    if r.result.Ok? {
      ResolveAllRecords(cat, p, paths);
      ExistingAllResolve(cat, r.plan, paths, r.result.value);
    }
  }
}
