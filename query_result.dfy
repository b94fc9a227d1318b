/** `generate_result_object` of server/query/result.py: turns one fetched
    row into a nested, JSON-like object by walking the query tree. A node's
    field nodes tagged SELECT become keys holding the row's attribute of
    that name; its children tagged SELECT become keys holding the object
    made from the related row (to-one) or the list of objects made from the
    related rows (to-many), the junction rows of an n:m relation first
    dereferenced through the child's shadow name.

    Rows are values: an instance is its list of attributes, a select query
    the list of rows it iterates, in order. `getattr` is a lookup in that
    list and raises `AttributeError` when the name is missing. The result
    dict is an insertion-ordered list of entries, as a Python `dict` is. */
module QueryResult {
  import opened Wrappers
  import opened QueryTree
  import opened Peewee
  import opened QueryBuilder

  /** What `getattr` can hand back: a column value, a model instance, a
      select query over related rows, or anything else (such as `None` for
      an unset foreign key). */
  datatype Value =
    | Atom(text: string)
    | Instance(attrs: seq<Attr>)
    | Rows(rows: seq<Value>)
    | Null

  datatype Attr = Attr(name: string, value: Value)

  /** What the result holds: a copied attribute, a nested object or a list
      of nested objects. */
  datatype Json = Plain(value: Value) | Object(entries: seq<Entry>) | List(items: seq<Json>)

  datatype Entry = Entry(key: string, json: Json)

  datatype ResultError = AttributeError(name: string)

  type ResultTree = Tree<ModelRef, FieldRef, QueryCommand>

  // -----------------------------------------------------------------------
  // Attributes and the result dict

  /** `getattr(obj, name)`: the first attribute of that name of an
      instance; anything else, or a missing name, raises. */
  function GetAttr(obj: Value, name: string): (r: Result<Value, ResultError>)
    ensures r.Err? <==> !(obj.Instance? && exists k :: 0 <= k < |obj.attrs| && obj.attrs[k].name == name)
    ensures r.Err? ==> r.error == AttributeError(name)
    ensures r.Ok? ==> Attr(name, r.value) in obj.attrs
  {
    if !obj.Instance? then Err(AttributeError(name))
    else AttrLookup(obj.attrs, name)
  }

  function AttrLookup(attrs: seq<Attr>, name: string): (r: Result<Value, ResultError>)
    ensures r.Err? <==> !(exists k :: 0 <= k < |attrs| && attrs[k].name == name)
    ensures r.Err? ==> r.error == AttributeError(name)
    ensures r.Ok? ==> Attr(name, r.value) in attrs
  {
    if attrs == [] then Err(AttributeError(name))
    else if attrs[0].name == name then Ok(attrs[0].value)
    else
      var r := AttrLookup(attrs[1..], name);
      assert forall k :: 1 <= k < |attrs| ==> attrs[k] == attrs[1..][k - 1];
      r
  }

  /** The keys of a result dict. */
  function Keys(es: seq<Entry>): set<string>
  {
    if es == [] then {} else {es[0].key} + Keys(es[1..])
  }

  /** No key is entered twice, as in a `dict`. */
  predicate KeysDistinct(es: seq<Entry>)
  {
    es == [] || (es[0].key !in Keys(es[1..]) && KeysDistinct(es[1..]))
  }

  /** `result[key]`, if present. */
  function Lookup(es: seq<Entry>, key: string): (r: Option<Json>)
    ensures r.None? <==> key !in Keys(es)
  {
    if es == [] then None
    else if es[0].key == key then Some(es[0].json)
    else Lookup(es[1..], key)
  }

  /** `result[key] = j`: an existing key keeps its place and takes the new
      value, a new key goes at the end. */
  function Put(es: seq<Entry>, key: string, j: Json): (es': seq<Entry>)
    ensures Keys(es') == Keys(es) + {key}
    ensures Lookup(es', key) == Some(j)
    ensures forall k :: k != key ==> Lookup(es', k) == Lookup(es, k)
    ensures KeysDistinct(es) ==> KeysDistinct(es')
  {
    if es == [] then [Entry(key, j)]
    else if es[0].key == key then
      var es' := [Entry(key, j)] + es[1..];
      assert es'[1..] == es[1..];
      es'
    else
      var rest := Put(es[1..], key, j);
      var es' := [es[0]] + rest;
      assert es'[1..] == rest;
      es'
  }

  // -----------------------------------------------------------------------
  // The function

  /** `generate_result_object(obj, node)` for node `i`: the field loop,
      then the child loop, each left to right. */
  function Generate(nodes: seq<PlanNode>, fns: seq<PlanField>, obj: Value, i: nat): Result<Json, ResultError>
    requires WellFormed(nodes, fns) && i < |nodes|
    decreases |nodes| - i, 3, 0
  {
    match FieldEntries(nodes, fns, obj, i, |nodes[i].fields|)
    case Err(e) => Err(e)
    case Ok(es) =>
      match ChildEntries(nodes, fns, obj, i, |nodes[i].children|, es)
      case Err(e) => Err(e)
      case Ok(es') => Ok(Object(es'))
  }

  /** The field loop over the first `k` field nodes of `i`. */
  function FieldEntries(nodes: seq<PlanNode>, fns: seq<PlanField>, obj: Value, i: nat, k: nat): Result<seq<Entry>, ResultError>
    requires WellFormed(nodes, fns) && i < |nodes| && k <= |nodes[i].fields|
  {
    if k == 0 then Ok([])
    else
      match FieldEntries(nodes, fns, obj, i, k - 1)
      case Err(e) => Err(e)
      case Ok(es) =>
        var f := fns[nodes[i].fields[k - 1]];
        if Select !in f.commands then Ok(es)
        else
          match GetAttr(obj, f.name)
          case Err(e) => Err(e)
          case Ok(v) => Ok(Put(es, f.name, Plain(v)))
  }

  /** The child loop over the first `k` children of `i`, starting from the
      entries `es0` the field loop made. */
  function ChildEntries(nodes: seq<PlanNode>, fns: seq<PlanField>, obj: Value, i: nat, k: nat, es0: seq<Entry>): Result<seq<Entry>, ResultError>
    requires WellFormed(nodes, fns) && i < |nodes| && k <= |nodes[i].children|
    decreases |nodes| - i, 2, k
  {
    if k == 0 then Ok(es0)
    else
      match ChildEntries(nodes, fns, obj, i, k - 1, es0)
      case Err(e) => Err(e)
      case Ok(es) =>
        var c := nodes[i].children[k - 1];
        if Select !in nodes[c].commands then Ok(es)
        else
          match GetAttr(obj, nodes[c].name)
          case Err(e) => Err(e)
          case Ok(v) =>
            match ChildJson(nodes, fns, c, v)
            case Err(e) => Err(e)
            case Ok(None) => Ok(es)
            case Ok(Some(j)) => Ok(Put(es, nodes[c].name, j))
  }

  /** What the child's attribute becomes: an instance a nested object, a
      select query a list, anything else no key at all. */
  function ChildJson(nodes: seq<PlanNode>, fns: seq<PlanField>, c: nat, v: Value): Result<Option<Json>, ResultError>
    requires WellFormed(nodes, fns) && c < |nodes|
    decreases |nodes| - c, 5, 0
  {
    match v
    case Instance(_) =>
      (match Generate(nodes, fns, v, c)
       case Err(e) => Err(e)
       case Ok(j) => Ok(Some(j)))
    case Rows(rows) =>
      (match RowsJson(nodes, fns, c, rows, |rows|)
       case Err(e) => Err(e)
       case Ok(js) => Ok(Some(List(js))))
    case _ => Ok(None)
  }

  /** The instance a related row stands for: the row itself, or for an n:m
      child the junction row's attribute named by the shadow name. */
  function RowTarget(n: PlanNode, row: Value): Result<Value, ResultError>
  {
    match n.shadowName
    case None => Ok(row)
    case Some(s) => GetAttr(row, s)
  }

  /** The list comprehension over the first `k` related rows. */
  function RowsJson(nodes: seq<PlanNode>, fns: seq<PlanField>, c: nat, rows: seq<Value>, k: nat): Result<seq<Json>, ResultError>
    requires WellFormed(nodes, fns) && c < |nodes| && k <= |rows|
    decreases |nodes| - c, 4, k
  {
    if k == 0 then Ok([])
    else
      match RowsJson(nodes, fns, c, rows, k - 1)
      case Err(e) => Err(e)
      case Ok(js) =>
        match RowTarget(nodes[c], rows[k - 1])
        case Err(e) => Err(e)
        case Ok(t) =>
          match Generate(nodes, fns, t, c)
          case Err(e) => Err(e)
          case Ok(j) => Ok(js + [j])
  }

  // -----------------------------------------------------------------------
  // The loops stop at the first error

  lemma {:induction false} FieldEntriesStops(nodes: seq<PlanNode>, fns: seq<PlanField>, obj: Value, i: nat, k: nat, n: nat)
    requires WellFormed(nodes, fns) && i < |nodes| && k <= n <= |nodes[i].fields|
    requires FieldEntries(nodes, fns, obj, i, k).Err?
    ensures FieldEntries(nodes, fns, obj, i, n) == FieldEntries(nodes, fns, obj, i, k)
    decreases n - k
  {
    if k < n {
      FieldEntriesStops(nodes, fns, obj, i, k, n - 1);
    }
  }

  lemma {:induction false} ChildEntriesStops(nodes: seq<PlanNode>, fns: seq<PlanField>, obj: Value, i: nat, k: nat, n: nat, es0: seq<Entry>)
    requires WellFormed(nodes, fns) && i < |nodes| && k <= n <= |nodes[i].children|
    requires ChildEntries(nodes, fns, obj, i, k, es0).Err?
    ensures ChildEntries(nodes, fns, obj, i, n, es0) == ChildEntries(nodes, fns, obj, i, k, es0)
    decreases n - k
  {
    if k < n {
      ChildEntriesStops(nodes, fns, obj, i, k, n - 1, es0);
    }
  }

  lemma {:induction false} RowsJsonStops(nodes: seq<PlanNode>, fns: seq<PlanField>, c: nat, rows: seq<Value>, k: nat, n: nat)
    requires WellFormed(nodes, fns) && c < |nodes| && k <= n <= |rows|
    requires RowsJson(nodes, fns, c, rows, k).Err?
    ensures RowsJson(nodes, fns, c, rows, n) == RowsJson(nodes, fns, c, rows, k)
    decreases n - k
  {
    if k < n {
      RowsJsonStops(nodes, fns, c, rows, k, n - 1);
    }
  }

  // -----------------------------------------------------------------------
  // The method

  /** `generate_result_object(query_object, query_tree_node)` on the tree
      object: a local dict filled by the field loop, then the child loop. */
  method GenerateResultObject(tree: ResultTree, obj: Value, i: nat) returns (r: Result<Json, ResultError>)
    requires tree.Valid() && i < |tree.nodes|
    ensures r == Generate(tree.nodes, tree.fieldNodes, obj, i)
    decreases |tree.nodes| - i, 3, 0
  {
    var es := FieldLoop(tree, obj, i);
    if es.Err? {
      return Err(es.error);
    }
    var es' := ChildLoop(tree, obj, i, es.value);
    if es'.Err? {
      return Err(es'.error);
    }
    return Ok(Object(es'.value));
  }

  /** The loop over the node's field nodes. */
  method FieldLoop(tree: ResultTree, obj: Value, i: nat) returns (r: Result<seq<Entry>, ResultError>)
    requires tree.Valid() && i < |tree.nodes|
    ensures r == FieldEntries(tree.nodes, tree.fieldNodes, obj, i, |tree.nodes[i].fields|)
  {
    var nodes, fns := tree.nodes, tree.fieldNodes;
    var result: seq<Entry> := [];
    var fields := nodes[i].fields;
    var k := 0;
    while k < |fields|
      invariant 0 <= k <= |fields|
      invariant FieldEntries(nodes, fns, obj, i, k) == Ok(result)
    {
      var f := fns[fields[k]];
      if Select in f.commands {
        var v := GetAttr(obj, f.name);
        if v.Err? {
          FieldEntriesStops(nodes, fns, obj, i, k + 1, |fields|);
          return Err(v.error);
        }
        result := Put(result, f.name, Plain(v.value));
      }
      k := k + 1;
    }
    return Ok(result);
  }

  /** The loop over the node's children, adding to the entries `es0`. */
  method ChildLoop(tree: ResultTree, obj: Value, i: nat, es0: seq<Entry>) returns (r: Result<seq<Entry>, ResultError>)
    requires tree.Valid() && i < |tree.nodes|
    ensures r == ChildEntries(tree.nodes, tree.fieldNodes, obj, i, |tree.nodes[i].children|, es0)
    decreases |tree.nodes| - i, 2, |tree.nodes[i].children|
  {
    var nodes, fns := tree.nodes, tree.fieldNodes;
    var result := es0;
    var children := nodes[i].children;
    var k := 0;
    while k < |children|
      invariant 0 <= k <= |children|
      invariant ChildEntries(nodes, fns, obj, i, k, es0) == Ok(result)
    {
      var c := children[k];
      if Select in nodes[c].commands {
        var v := GetAttr(obj, nodes[c].name);
        if v.Err? {
          ChildEntriesStops(nodes, fns, obj, i, k + 1, |children|, es0);
          return Err(v.error);
        }
        var j := ChildObject(tree, c, v.value);
        if j.Err? {
          ChildEntriesStops(nodes, fns, obj, i, k + 1, |children|, es0);
          return Err(j.error);
        }
        if j.value.Some? {
          result := Put(result, nodes[c].name, j.value.value);
        }
      }
      k := k + 1;
    }
    return Ok(result);
  }

  /** The `isinstance` dispatch on a selected child's attribute. */
  method ChildObject(tree: ResultTree, c: nat, v: Value) returns (r: Result<Option<Json>, ResultError>)
    requires tree.Valid() && c < |tree.nodes|
    ensures r == ChildJson(tree.nodes, tree.fieldNodes, c, v)
    decreases |tree.nodes| - c, 5, 0
  {
    match v
    case Instance(_) =>
      var j := GenerateResultObject(tree, v, c);
      if j.Err? {
        return Err(j.error);
      }
      return Ok(Some(j.value));
    case Rows(rows) =>
      var js := RowObjects(tree, c, rows);
      if js.Err? {
        return Err(js.error);
      }
      return Ok(Some(List(js.value)));
    case _ =>
      return Ok(None);
  }

  /** The list comprehension over a to-many child's rows. */
  method RowObjects(tree: ResultTree, c: nat, rows: seq<Value>) returns (r: Result<seq<Json>, ResultError>)
    requires tree.Valid() && c < |tree.nodes|
    ensures r == RowsJson(tree.nodes, tree.fieldNodes, c, rows, |rows|)
    decreases |tree.nodes| - c, 4, |rows|
  {
    var nodes, fns := tree.nodes, tree.fieldNodes;
    var js: seq<Json> := [];
    var k := 0;
    while k < |rows|
      invariant 0 <= k <= |rows|
      invariant RowsJson(nodes, fns, c, rows, k) == Ok(js)
    {
      var t := RowTarget(nodes[c], rows[k]);
      if t.Err? {
        RowsJsonStops(nodes, fns, c, rows, k + 1, |rows|);
        return Err(t.error);
      }
      var j := GenerateResultObject(tree, t.value, c);
      if j.Err? {
        RowsJsonStops(nodes, fns, c, rows, k + 1, |rows|);
        return Err(j.error);
      }
      assert RowsJson(nodes, fns, c, rows, k + 1) == Ok(js + [j.value]);
      js := js + [j.value];
      k := k + 1;
    }
    return Ok(js);
  }
}
