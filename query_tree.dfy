/** The query tree of server/query/tree.py: named nodes, one per model
    reached by a path, each holding an insertion-ordered list of child nodes
    and of field nodes, and a list of command tags.

    The tree is an arena: the nodes live in one sequence and the field nodes
    in another, and a node refers to its parent, children and fields by
    position. A position plays the part of a Python object's identity. The
    model a node stands for, the field a field node stands for and the
    command tags are type parameters, as the tree never looks inside them. */
module QueryTree {
  import opened Wrappers

  datatype Node<M, C> = Node(
    name: string,
    model: M,
    shadowName: Option<string>,
    parent: Option<nat>,
    children: seq<nat>,
    fields: seq<nat>,
    commands: seq<C>)

  datatype FieldNode<F, C> = FieldNode(name: string, field: F, parent: nat, commands: seq<C>)

  /** What the pre-order walk yields: a node or a field node. */
  datatype Item = NodeItem(node: nat) | FieldItem(fieldNode: nat)

  /** A node as `QueryTreeNode.__init__` leaves it: no children, no fields,
      no commands. */
  function FreshNode<M, C>(name: string, model: M, shadowName: Option<string>, parent: Option<nat>): (n: Node<M, C>)
    ensures n.children == [] && n.fields == [] && n.commands == []
    ensures n.name == name && n.model == model && n.shadowName == shadowName && n.parent == parent
  {
    Node(name, model, shadowName, parent, [], [], [])
  }

  // -----------------------------------------------------------------------
  // Shape

  /** Node 0 is the root; every other node has an earlier parent, and the
      child lists point forward to nodes that name their parent back. */
  predicate TreeShape<M, C>(nodes: seq<Node<M, C>>)
  {
    && |nodes| >= 1 && nodes[0].parent.None?
    && (forall i :: 0 < i < |nodes| ==> nodes[i].parent.Some? && nodes[i].parent.value < i)
    && (forall i, k :: 0 <= i < |nodes| && 0 <= k < |nodes[i].children| ==>
          i < nodes[i].children[k] < |nodes| && nodes[nodes[i].children[k]].parent == Some(i))
  }

  /** Every field list points at field nodes that name their owner back. */
  predicate FieldShape<M, F, C>(nodes: seq<Node<M, C>>, fieldNodes: seq<FieldNode<F, C>>)
  {
    && (forall i, k :: 0 <= i < |nodes| && 0 <= k < |nodes[i].fields| ==>
          nodes[i].fields[k] < |fieldNodes| && fieldNodes[nodes[i].fields[k]].parent == i)
    && (forall f :: 0 <= f < |fieldNodes| ==> fieldNodes[f].parent < |nodes|)
  }

  predicate WellFormed<M, F, C>(nodes: seq<Node<M, C>>, fieldNodes: seq<FieldNode<F, C>>)
  {
    TreeShape(nodes) && FieldShape(nodes, fieldNodes)
  }

  /** Appending a fresh child, as `add_child` does, keeps the shape. */
  lemma ChildAddedShape<M, F, C>(nodes: seq<Node<M, C>>, fieldNodes: seq<FieldNode<F, C>>, p: nat,
                                 name: string, model: M, shadowName: Option<string>)
    requires WellFormed(nodes, fieldNodes) && p < |nodes|
    ensures WellFormed(nodes[p := nodes[p].(children := nodes[p].children + [|nodes|])]
                       + [FreshNode(name, model, shadowName, Some(p))], fieldNodes)
  {
    var nodes' := nodes[p := nodes[p].(children := nodes[p].children + [|nodes|])] + [FreshNode(name, model, shadowName, Some(p))];
    assert forall i :: 0 <= i < |nodes| ==> nodes'[i].parent == nodes[i].parent && nodes'[i].fields == nodes[i].fields;
    assert forall i :: 0 <= i < |nodes| && i != p ==> nodes'[i].children == nodes[i].children;
  }

  /** Appending a fresh field node, as `add_field` does, keeps the shape. */
  lemma FieldAddedShape<M, F, C>(nodes: seq<Node<M, C>>, fieldNodes: seq<FieldNode<F, C>>, p: nat, name: string, field: F)
    requires WellFormed(nodes, fieldNodes) && p < |nodes|
    ensures WellFormed(nodes[p := nodes[p].(fields := nodes[p].fields + [|fieldNodes|])],
                       fieldNodes + [FieldNode(name, field, p, [])])
  {
    var nodes' := nodes[p := nodes[p].(fields := nodes[p].fields + [|fieldNodes|])];
    assert forall i :: 0 <= i < |nodes| ==> nodes'[i].parent == nodes[i].parent && nodes'[i].children == nodes[i].children;
  }

  /** Changing a node's commands does not touch the shape. */
  lemma CommandsSetShape<M, F, C>(nodes: seq<Node<M, C>>, fieldNodes: seq<FieldNode<F, C>>, i: nat, commands: seq<C>)
    requires WellFormed(nodes, fieldNodes) && i < |nodes|
    ensures WellFormed(nodes[i := nodes[i].(commands := commands)], fieldNodes)
  {
    var nodes' := nodes[i := nodes[i].(commands := commands)];
    assert forall j :: 0 <= j < |nodes| ==>
      nodes'[j].parent == nodes[j].parent && nodes'[j].children == nodes[j].children && nodes'[j].fields == nodes[j].fields;
  }

  /** No two children of `i` carry the same name. */
  predicate ChildNamesDistinct<M, C>(nodes: seq<Node<M, C>>, i: nat)
    requires TreeShape(nodes) && i < |nodes|
  {
    forall a, b :: 0 <= a < b < |nodes[i].children| ==>
      nodes[nodes[i].children[a]].name != nodes[nodes[i].children[b]].name
  }

  /** Every node's children carry distinct names. */
  predicate ChildNamesUnique<M, C>(nodes: seq<Node<M, C>>)
    requires TreeShape(nodes)
  {
    forall i :: 0 <= i < |nodes| ==> ChildNamesDistinct(nodes, i)
  }

  /** Appending a child under a name no child of the parent carries, as
      `add_child` after a failed `get_child` does, keeps the names
      distinct. */
  lemma ChildAddedNames<M, F, C>(nodes: seq<Node<M, C>>, fieldNodes: seq<FieldNode<F, C>>, p: nat,
                                 name: string, model: M, shadowName: Option<string>)
    requires WellFormed(nodes, fieldNodes) && ChildNamesUnique(nodes) && p < |nodes|
    requires FirstNodeNamed(nodes, nodes[p].children, name).None?
    ensures var nodes' := nodes[p := nodes[p].(children := nodes[p].children + [|nodes|])]
                          + [FreshNode(name, model, shadowName, Some(p))];
      TreeShape(nodes') && ChildNamesUnique(nodes')
  {
    var nodes' := nodes[p := nodes[p].(children := nodes[p].children + [|nodes|])] + [FreshNode(name, model, shadowName, Some(p))];
    ChildAddedShape(nodes, fieldNodes, p, name, model, shadowName);
    FirstNodeNamedSpec(nodes, nodes[p].children, name);
    assert forall j :: 0 <= j < |nodes| ==> nodes'[j].name == nodes[j].name;
    forall i | 0 <= i < |nodes'|
      ensures ChildNamesDistinct(nodes', i)
    {
      if i == p {
        ChildAddedNamesAt(nodes, nodes', p, name);
      } else if i < |nodes| {
        assert ChildNamesDistinct(nodes, i);
        assert nodes'[i].children == nodes[i].children;
      }
    }
  }

  lemma ChildAddedNamesAt<M, C>(nodes: seq<Node<M, C>>, nodes': seq<Node<M, C>>, p: nat, name: string)
    requires TreeShape(nodes) && TreeShape(nodes') && p < |nodes| < |nodes'| && ChildNamesDistinct(nodes, p)
    requires nodes'[p].children == nodes[p].children + [|nodes|] && nodes'[|nodes|].name == name
    requires forall j :: 0 <= j < |nodes| ==> nodes'[j].name == nodes[j].name
    requires forall k :: 0 <= k < |nodes[p].children| ==> nodes[nodes[p].children[k]].name != name
    ensures ChildNamesDistinct(nodes', p)
  {
    var cs, cs' := nodes[p].children, nodes'[p].children;
    forall a, b | 0 <= a < b < |cs'|
      ensures nodes'[cs'[a]].name != nodes'[cs'[b]].name
    {
      assert cs'[a] == cs[a];
      if b < |cs| {
        assert cs'[b] == cs[b];
      } else {
        assert cs'[b] == |nodes|;
      }
    }
  }

  /** Changing anything but names and child lists keeps the names
      distinct. */
  lemma SameChildNames<M, C>(nodes: seq<Node<M, C>>, nodes': seq<Node<M, C>>)
    requires TreeShape(nodes) && TreeShape(nodes') && ChildNamesUnique(nodes) && |nodes'| == |nodes|
    requires forall j :: 0 <= j < |nodes| ==> nodes'[j].name == nodes[j].name && nodes'[j].children == nodes[j].children
    ensures ChildNamesUnique(nodes')
  {
    forall i | 0 <= i < |nodes'|
      ensures ChildNamesDistinct(nodes', i)
    {
      assert ChildNamesDistinct(nodes, i);
    }
  }

  // -----------------------------------------------------------------------
  // Lookup by name

  /** The first node among `ids`, in list order, carrying `name`. */
  function FirstNodeNamed<M, C>(nodes: seq<Node<M, C>>, ids: seq<nat>, name: string): (r: Option<nat>)
    requires forall k :: 0 <= k < |ids| ==> ids[k] < |nodes|
    ensures r.Some? ==> r.value in ids && nodes[r.value].name == name
  {
    if ids == [] then None
    else if nodes[ids[0]].name == name then Some(ids[0])
    else FirstNodeNamed(nodes, ids[1..], name)
  }

  /** The first field node among `ids`, in list order, carrying `name`. */
  function FirstFieldNamed<F, C>(fieldNodes: seq<FieldNode<F, C>>, ids: seq<nat>, name: string): (r: Option<nat>)
    requires forall k :: 0 <= k < |ids| ==> ids[k] < |fieldNodes|
    ensures r.Some? ==> r.value in ids && fieldNodes[r.value].name == name
  {
    if ids == [] then None
    else if fieldNodes[ids[0]].name == name then Some(ids[0])
    else FirstFieldNamed(fieldNodes, ids[1..], name)
  }

  /** `get_child`: the first child with that name, if any. */
  function ChildNamed<M, C>(nodes: seq<Node<M, C>>, p: nat, name: string): Option<nat>
    requires TreeShape(nodes) && p < |nodes|
  {
    FirstNodeNamed(nodes, nodes[p].children, name)
  }

  /** `get_field`: the first field node with that name, if any. */
  function FieldNamed<M, F, C>(nodes: seq<Node<M, C>>, fieldNodes: seq<FieldNode<F, C>>, p: nat, name: string): Option<nat>
    requires FieldShape(nodes, fieldNodes) && p < |nodes|
  {
    FirstFieldNamed(fieldNodes, nodes[p].fields, name)
  }

  /** The first match really is the first: found at some position of the
      list, and no earlier entry carries the name; no match means no entry
      carries it. */
  lemma {:induction false} FirstNodeNamedSpec<M, C>(nodes: seq<Node<M, C>>, ids: seq<nat>, name: string)
    requires forall k :: 0 <= k < |ids| ==> ids[k] < |nodes|
    ensures var r := FirstNodeNamed(nodes, ids, name);
      r.Some? <==> exists k :: 0 <= k < |ids| && nodes[ids[k]].name == name
    ensures var r := FirstNodeNamed(nodes, ids, name);
      r.Some? ==>
        exists k :: 0 <= k < |ids| && ids[k] == r.value && nodes[ids[k]].name == name &&
          forall j :: 0 <= j < k ==> nodes[ids[j]].name != name
  {
    if ids != [] && nodes[ids[0]].name != name {
      FirstNodeNamedSpec(nodes, ids[1..], name);
      var r := FirstNodeNamed(nodes, ids, name);
      if r.Some? {
        var k :| 0 <= k < |ids[1..]| && ids[1..][k] == r.value && nodes[ids[1..][k]].name == name
          && forall j :: 0 <= j < k ==> nodes[ids[1..][j]].name != name;
        assert ids[k + 1] == r.value;
        assert forall j :: 0 <= j < k + 1 ==> nodes[ids[j]].name != name by {
          forall j | 0 <= j < k + 1
            ensures nodes[ids[j]].name != name
          {
            if j > 0 {
              assert ids[j] == ids[1..][j - 1];
            }
          }
        }
      } else {
        forall k | 0 <= k < |ids|
          ensures nodes[ids[k]].name != name
        {
          if k > 0 {
            assert ids[k] == ids[1..][k - 1];
          }
        }
      }
    }
  }

  lemma {:induction false} FirstFieldNamedSpec<F, C>(fieldNodes: seq<FieldNode<F, C>>, ids: seq<nat>, name: string)
    requires forall k :: 0 <= k < |ids| ==> ids[k] < |fieldNodes|
    ensures var r := FirstFieldNamed(fieldNodes, ids, name);
      r.Some? <==> exists k :: 0 <= k < |ids| && fieldNodes[ids[k]].name == name
    ensures var r := FirstFieldNamed(fieldNodes, ids, name);
      r.Some? ==>
        exists k :: 0 <= k < |ids| && ids[k] == r.value && fieldNodes[ids[k]].name == name &&
          forall j :: 0 <= j < k ==> fieldNodes[ids[j]].name != name
  {
    if ids != [] && fieldNodes[ids[0]].name != name {
      FirstFieldNamedSpec(fieldNodes, ids[1..], name);
      var r := FirstFieldNamed(fieldNodes, ids, name);
      if r.Some? {
        var k :| 0 <= k < |ids[1..]| && ids[1..][k] == r.value && fieldNodes[ids[1..][k]].name == name
          && forall j :: 0 <= j < k ==> fieldNodes[ids[1..][j]].name != name;
        assert ids[k + 1] == r.value;
        assert forall j :: 0 <= j < k + 1 ==> fieldNodes[ids[j]].name != name by {
          forall j | 0 <= j < k + 1
            ensures fieldNodes[ids[j]].name != name
          {
            if j > 0 {
              assert ids[j] == ids[1..][j - 1];
            }
          }
        }
      } else {
        forall k | 0 <= k < |ids|
          ensures fieldNodes[ids[k]].name != name
        {
          if k > 0 {
            assert ids[k] == ids[1..][k - 1];
          }
        }
      }
    }
  }

  /** Appending an entry does not change an earlier match; without one, the
      new entry is found when it carries the name. */
  lemma {:induction false} FirstNodeNamedAppend<M, C>(nodes: seq<Node<M, C>>, ids: seq<nat>, id: nat, name: string)
    requires forall k :: 0 <= k < |ids| ==> ids[k] < |nodes|
    requires id < |nodes|
    ensures FirstNodeNamed(nodes, ids + [id], name) ==
      if FirstNodeNamed(nodes, ids, name).Some? then FirstNodeNamed(nodes, ids, name)
      else if nodes[id].name == name then Some(id) else None
  {
    if ids == [] {
      assert ids + [id] == [id];
      assert [id][1..] == [];
    } else {
      assert (ids + [id])[1..] == ids[1..] + [id];
      FirstNodeNamedAppend(nodes, ids[1..], id, name);
    }
  }

  lemma {:induction false} FirstFieldNamedAppend<F, C>(fieldNodes: seq<FieldNode<F, C>>, ids: seq<nat>, id: nat, name: string)
    requires forall k :: 0 <= k < |ids| ==> ids[k] < |fieldNodes|
    requires id < |fieldNodes|
    ensures FirstFieldNamed(fieldNodes, ids + [id], name) ==
      if FirstFieldNamed(fieldNodes, ids, name).Some? then FirstFieldNamed(fieldNodes, ids, name)
      else if fieldNodes[id].name == name then Some(id) else None
  {
    if ids == [] {
      assert ids + [id] == [id];
      assert [id][1..] == [];
    } else {
      assert (ids + [id])[1..] == ids[1..] + [id];
      FirstFieldNamedAppend(fieldNodes, ids[1..], id, name);
    }
  }

  /** A match stays the first match when the list only grows at its end
      and the names already in it are kept: what `get_child` and
      `get_field` found once, they find again. */
  lemma {:induction false} FirstNodeNamedExtend<M, C>(nodes: seq<Node<M, C>>, nodes': seq<Node<M, C>>, ids: seq<nat>, ids': seq<nat>, name: string)
    requires ids <= ids'
    requires forall k :: 0 <= k < |ids| ==> ids[k] < |nodes|
    requires forall k :: 0 <= k < |ids'| ==> ids'[k] < |nodes'|
    requires forall k :: 0 <= k < |ids| ==> nodes'[ids[k]].name == nodes[ids[k]].name
    requires FirstNodeNamed(nodes, ids, name).Some?
    ensures FirstNodeNamed(nodes', ids', name) == FirstNodeNamed(nodes, ids, name)
  {
    assert ids'[0] == ids[0];
    if nodes[ids[0]].name != name {
      assert ids[1..] <= ids'[1..];
      FirstNodeNamedExtend(nodes, nodes', ids[1..], ids'[1..], name);
    }
  }

  lemma {:induction false} FirstFieldNamedExtend<F, C>(fs: seq<FieldNode<F, C>>, fs': seq<FieldNode<F, C>>, ids: seq<nat>, ids': seq<nat>, name: string)
    requires ids <= ids'
    requires forall k :: 0 <= k < |ids| ==> ids[k] < |fs|
    requires forall k :: 0 <= k < |ids'| ==> ids'[k] < |fs'|
    requires forall k :: 0 <= k < |ids| ==> fs'[ids[k]].name == fs[ids[k]].name
    requires FirstFieldNamed(fs, ids, name).Some?
    ensures FirstFieldNamed(fs', ids', name) == FirstFieldNamed(fs, ids, name)
  {
    assert ids'[0] == ids[0];
    if fs[ids[0]].name != name {
      assert ids[1..] <= ids'[1..];
      FirstFieldNamedExtend(fs, fs', ids[1..], ids'[1..], name);
    }
  }

  /** Lookups read only the names of the entries they scan. */
  lemma {:induction false} FirstNodeNamedNames<M, C>(nodes: seq<Node<M, C>>, nodes': seq<Node<M, C>>, ids: seq<nat>, name: string)
    requires forall k :: 0 <= k < |ids| ==> ids[k] < |nodes| && ids[k] < |nodes'|
    requires forall k :: 0 <= k < |ids| ==> nodes'[ids[k]].name == nodes[ids[k]].name
    ensures FirstNodeNamed(nodes', ids, name) == FirstNodeNamed(nodes, ids, name)
  {
    if ids != [] {
      FirstNodeNamedNames(nodes, nodes', ids[1..], name);
    }
  }

  lemma {:induction false} FirstFieldNamedNames<F, C>(fs: seq<FieldNode<F, C>>, fs': seq<FieldNode<F, C>>, ids: seq<nat>, name: string)
    requires forall k :: 0 <= k < |ids| ==> ids[k] < |fs| && ids[k] < |fs'|
    requires forall k :: 0 <= k < |ids| ==> fs'[ids[k]].name == fs[ids[k]].name
    ensures FirstFieldNamed(fs', ids, name) == FirstFieldNamed(fs, ids, name)
  {
    if ids != [] {
      FirstFieldNamedNames(fs, fs', ids[1..], name);
    }
  }

  // -----------------------------------------------------------------------
  // Pre-order iteration

  function FieldItems(ids: seq<nat>): (items: seq<Item>)
    ensures |items| == |ids|
    ensures forall k :: 0 <= k < |ids| ==> items[k] == FieldItem(ids[k])
  {
    if ids == [] then [] else [FieldItem(ids[0])] + FieldItems(ids[1..])
  }

  /** `QueryTreeNode.__iter__`: the node, its fields in order, then each
      child's walk in order. */
  function Iter<M, C>(nodes: seq<Node<M, C>>, i: nat): seq<Item>
    requires TreeShape(nodes) && i < |nodes|
    decreases |nodes| - i, 1, 0
  {
    [NodeItem(i)] + FieldItems(nodes[i].fields) + IterChildren(nodes, i, 0)
  }

  /** The walks of the children of `i` from position `k` on. */
  function IterChildren<M, C>(nodes: seq<Node<M, C>>, i: nat, k: nat): seq<Item>
    requires TreeShape(nodes) && i < |nodes| && k <= |nodes[i].children|
    decreases |nodes| - i, 0, |nodes[i].children| - k
  {
    if k == |nodes[i].children| then []
    else Iter(nodes, nodes[i].children[k]) + IterChildren(nodes, i, k + 1)
  }

  /** The field nodes among the items, in their order. */
  function FieldsOf(items: seq<Item>): (fs: seq<nat>)
    ensures |fs| <= |items|
  {
    if items == [] then []
    else (if items[0].FieldItem? then [items[0].fieldNode] else []) + FieldsOf(items[1..])
  }

  lemma {:induction false} FieldsOfMembers(items: seq<Item>)
    ensures forall f :: f in FieldsOf(items) <==> FieldItem(f) in items
  {
    if items != [] {
      FieldsOfMembers(items[1..]);
      assert items == [items[0]] + items[1..];
    }
  }

  lemma {:induction false} FieldsOfAppend(items: seq<Item>, more: seq<Item>)
    ensures FieldsOf(items + more) == FieldsOf(items) + FieldsOf(more)
  {
    if items == [] {
      assert items + more == more;
    } else {
      var h := if items[0].FieldItem? then [items[0].fieldNode] else [];
      var xs := items + more;
      assert xs[0] == items[0];
      assert xs[1..] == items[1..] + more;
      assert FieldsOf(xs) == h + FieldsOf(items[1..] + more);
      FieldsOfAppend(items[1..], more);
    }
  }

  lemma {:induction false} FieldsOfFieldItems(ids: seq<nat>)
    ensures FieldsOf(FieldItems(ids)) == ids
  {
    if ids != [] {
      FieldsOfFieldItems(ids[1..]);
    }
  }

  /** The number of items the walks of a list of children yield. */
  function ChildrenSize<M, C>(nodes: seq<Node<M, C>>, i: nat, k: nat): nat
    requires TreeShape(nodes) && i < |nodes| && k <= |nodes[i].children|
    decreases |nodes[i].children| - k
  {
    if k == |nodes[i].children| then 0
    else |Iter(nodes, nodes[i].children[k])| + ChildrenSize(nodes, i, k + 1)
  }

  /** The walk starts at the node, continues with its fields in order, and
      has length one plus the number of fields plus the children's walks. */
  lemma IterShape<M, C>(nodes: seq<Node<M, C>>, i: nat)
    requires TreeShape(nodes) && i < |nodes|
    ensures var it := Iter(nodes, i); var n := |nodes[i].fields|;
      && |it| == 1 + n + ChildrenSize(nodes, i, 0)
      && it[0] == NodeItem(i)
      && (forall k :: 0 <= k < n ==> it[1 + k] == FieldItem(nodes[i].fields[k]))
  {
    IterChildrenSize(nodes, i, 0);
  }

  lemma {:induction false} IterChildrenSize<M, C>(nodes: seq<Node<M, C>>, i: nat, k: nat)
    requires TreeShape(nodes) && i < |nodes| && k <= |nodes[i].children|
    ensures |IterChildren(nodes, i, k)| == ChildrenSize(nodes, i, k)
    decreases |nodes[i].children| - k
  {
    if k < |nodes[i].children| {
      IterChildrenSize(nodes, i, k + 1);
    }
  }

  /** Everything the walk of `i` yields lies at or below `i` in the arena:
      node positions not before `i`, and field nodes that exist. */
  lemma {:induction false} IterBounds<M, F, C>(nodes: seq<Node<M, C>>, fieldNodes: seq<FieldNode<F, C>>, i: nat)
    requires WellFormed(nodes, fieldNodes) && i < |nodes|
    ensures forall x :: x in Iter(nodes, i) ==>
      (x.NodeItem? ==> i <= x.node < |nodes|) && (x.FieldItem? ==> x.fieldNode < |fieldNodes|)
    decreases |nodes| - i, 1, 0
  {
    IterChildrenBounds(nodes, fieldNodes, i, 0);
  }

  lemma {:induction false} IterChildrenBounds<M, F, C>(nodes: seq<Node<M, C>>, fieldNodes: seq<FieldNode<F, C>>, i: nat, k: nat)
    requires WellFormed(nodes, fieldNodes) && i < |nodes| && k <= |nodes[i].children|
    ensures forall x :: x in IterChildren(nodes, i, k) ==>
      (x.NodeItem? ==> i < x.node < |nodes|) && (x.FieldItem? ==> x.fieldNode < |fieldNodes|)
    decreases |nodes| - i, 0, |nodes[i].children| - k
  {
    if k < |nodes[i].children| {
      IterBounds(nodes, fieldNodes, nodes[i].children[k]);
      IterChildrenBounds(nodes, fieldNodes, i, k + 1);
    }
  }

  // -----------------------------------------------------------------------
  // The tree object

  /** `QueryTree` together with the `QueryTreeNode` and
      `QueryTreeFieldNode` objects it owns. */
  class Tree<M, F, C> {
    var nodes: seq<Node<M, C>>
    var fieldNodes: seq<FieldNode<F, C>>

    ghost predicate Valid()
      reads this
    {
      WellFormed(nodes, fieldNodes)
    }

    /** `QueryTree(model)`: a root named after the model, with nothing
        below it. */
    constructor (name: string, model: M)
      ensures Valid()
      ensures nodes == [FreshNode(name, model, None, None)] && fieldNodes == []
    {
      nodes := [FreshNode(name, model, None, None)];
      fieldNodes := [];
    }

    /** `is_root`: a node without a parent. */
    predicate IsRoot(i: nat)
      reads this
      requires i < |nodes|
    {
      nodes[i].parent.None?
    }

    /** Exactly the first node is the root. */
    lemma RootIsFirst(i: nat)
      requires Valid() && i < |nodes|
      ensures IsRoot(i) <==> i == 0
    {
    }

    /** `add_child`: one node appended at the end of the parent's children,
        carrying the given name, model, shadow name and parent; nothing
        else changes. */
    method AddChild(p: nat, name: string, model: M, shadowName: Option<string>) returns (c: nat)
      requires Valid() && p < |nodes|
      modifies this
      ensures Valid()
      ensures c == |old(nodes)| && c < |nodes| && !IsRoot(c)
      ensures nodes == old(nodes)[p := old(nodes)[p].(children := old(nodes)[p].children + [c])]
                       + [FreshNode(name, model, shadowName, Some(p))]
      ensures fieldNodes == old(fieldNodes)
    {
      ChildAddedShape(nodes, fieldNodes, p, name, model, shadowName);
      c := |nodes|;
      var parent := nodes[p];
      nodes := nodes[p := parent.(children := parent.children + [c])] + [FreshNode(name, model, shadowName, Some(p))];
    }

    /** `add_field`: one field node appended at the end of the parent's
        fields; the children are untouched. */
    method AddField(p: nat, name: string, field: F) returns (f: nat)
      requires Valid() && p < |nodes|
      modifies this
      ensures Valid()
      ensures f == |old(fieldNodes)|
      ensures nodes == old(nodes)[p := old(nodes)[p].(fields := old(nodes)[p].fields + [f])]
      ensures fieldNodes == old(fieldNodes) + [FieldNode(name, field, p, [])]
    {
      FieldAddedShape(nodes, fieldNodes, p, name, field);
      f := |fieldNodes|;
      var parent := nodes[p];
      nodes := nodes[p := parent.(fields := parent.fields + [f])];
      fieldNodes := fieldNodes + [FieldNode(name, field, p, [])];
    }

    /** `node.commands.append(command)`. */
    method AddNodeCommand(i: nat, command: C)
      requires Valid() && i < |nodes|
      modifies this
      ensures Valid()
      ensures nodes == old(nodes)[i := old(nodes)[i].(commands := old(nodes)[i].commands + [command])]
      ensures fieldNodes == old(fieldNodes)
    {
      CommandsSetShape(nodes, fieldNodes, i, nodes[i].commands + [command]);
      var n := nodes[i];
      nodes := nodes[i := n.(commands := n.commands + [command])];
    }

    /** `field_node.commands.append(command)`. */
    method AddFieldCommand(f: nat, command: C)
      requires Valid() && f < |fieldNodes|
      modifies this
      ensures Valid()
      ensures fieldNodes == old(fieldNodes)[f := old(fieldNodes)[f].(commands := old(fieldNodes)[f].commands + [command])]
      ensures nodes == old(nodes)
    {
      var x := fieldNodes[f];
      fieldNodes := fieldNodes[f := x.(commands := x.commands + [command])];
    }

    /** `get_child(name)`: scans the children in order and returns the
        first with that name, or nothing. */
    method GetChild(p: nat, name: string) returns (r: Option<nat>)
      requires Valid() && p < |nodes|
      ensures r == ChildNamed(nodes, p, name)
      ensures r.Some? ==> r.value in nodes[p].children && nodes[r.value].name == name
      ensures r.None? ==> forall k :: 0 <= k < |nodes[p].children| ==> nodes[nodes[p].children[k]].name != name
    {
      var children := nodes[p].children;
      var k := 0;
      while k < |children|
        invariant 0 <= k <= |children|
        invariant FirstNodeNamed(nodes, children, name) == FirstNodeNamed(nodes, children[k..], name)
        invariant forall j :: 0 <= j < k ==> nodes[children[j]].name != name
      {
        if nodes[children[k]].name == name {
          r := Some(children[k]);
          FirstNodeNamedSpec(nodes, children, name);
          return;
        }
        assert children[k..][1..] == children[k + 1..];
        k := k + 1;
      }
      r := None;
      FirstNodeNamedSpec(nodes, children, name);
    }

    /** `get_field(name)`: the first field node with that name, or
        nothing. */
    method GetField(p: nat, name: string) returns (r: Option<nat>)
      requires Valid() && p < |nodes|
      ensures r == FieldNamed(nodes, fieldNodes, p, name)
      ensures r.Some? ==> r.value in nodes[p].fields && fieldNodes[r.value].name == name
      ensures r.None? ==> forall k :: 0 <= k < |nodes[p].fields| ==> fieldNodes[nodes[p].fields[k]].name != name
    {
      var fields := nodes[p].fields;
      var k := 0;
      while k < |fields|
        invariant 0 <= k <= |fields|
        invariant FirstFieldNamed(fieldNodes, fields, name) == FirstFieldNamed(fieldNodes, fields[k..], name)
        invariant forall j :: 0 <= j < k ==> fieldNodes[fields[j]].name != name
      {
        if fieldNodes[fields[k]].name == name {
          r := Some(fields[k]);
          FirstFieldNamedSpec(fieldNodes, fields, name);
          return;
        }
        assert fields[k..][1..] == fields[k + 1..];
        k := k + 1;
      }
      r := None;
      FirstFieldNamedSpec(fieldNodes, fields, name);
    }

    /** `node_iter`: the pre-order walk from the root. */
    function NodeIter(): (items: seq<Item>)
      reads this
      requires Valid()
      ensures |items| >= 1 && items[0] == NodeItem(0)
    {
      IterShape(nodes, 0);
      Iter(nodes, 0)
    }

    /** `field_iter`: the field nodes of the walk, in the walk's order. */
    method FieldIter() returns (fs: seq<nat>)
      requires Valid()
      ensures fs == FieldsOf(NodeIter())
      ensures forall f :: f in fs <==> FieldItem(f) in NodeIter()
      ensures forall k :: 0 <= k < |fs| ==> fs[k] < |fieldNodes|
    {
      var items := NodeIter();
      fs := [];
      for k := 0 to |items|
        invariant fs == FieldsOf(items[..k])
      {
        FieldsOfAppend(items[..k], [items[k]]);
        assert items[..k + 1] == items[..k] + [items[k]];
        assert [items[k]][1..] == [];
        if items[k].FieldItem? {
          fs := fs + [items[k].fieldNode];
        }
      }
      assert items[..|items|] == items;
      FieldsOfMembers(items);
      IterBounds(nodes, fieldNodes, 0);
      forall k | 0 <= k < |fs|
        ensures fs[k] < |fieldNodes|
      {
        assert fs[k] in fs;
        assert FieldItem(fs[k]) in items;
      }
    }
  }
}
