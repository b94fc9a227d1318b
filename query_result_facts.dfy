/** What `generate_result_object` of server/query/result.py promises about
    the object it builds: which keys it has, what each key holds, how the
    rows of a to-many child become a list, and that only the attributes of
    SELECT-tagged nodes are read. */
module QueryResultFacts {
  import opened Wrappers
  import opened QueryTree
  import opened QueryBuilder
  import opened QueryResult
  import Peewee

  /** `getattr` gave a model instance or a select query: the two kinds a
      child turns into a key. */
  predicate IsRelated(r: Result<Value, ResultError>)
  {
    r.Ok? && (r.value.Instance? || r.value.Rows?)
  }

  /** One of the first `k` field nodes of `i` is tagged SELECT and named `key`. */
  predicate FieldSelects(nodes: seq<PlanNode>, fns: seq<PlanField>, i: nat, k: nat, key: string)
    requires WellFormed(nodes, fns) && i < |nodes| && k <= |nodes[i].fields|
  {
    exists j :: 0 <= j < k && Select in fns[nodes[i].fields[j]].commands && fns[nodes[i].fields[j]].name == key
  }

  /** One of the first `k` children of `i` is tagged SELECT, named `key`,
      and `obj`'s attribute of that name is an instance or a select query. */
  predicate ChildSelects(nodes: seq<PlanNode>, fns: seq<PlanField>, obj: Value, i: nat, k: nat, key: string)
    requires WellFormed(nodes, fns) && i < |nodes| && k <= |nodes[i].children|
  {
    exists j :: 0 <= j < k && Select in nodes[nodes[i].children[j]].commands
      && nodes[nodes[i].children[j]].name == key && IsRelated(GetAttr(obj, key))
  }

  // -----------------------------------------------------------------------
  // Keys

  lemma {:induction false} FieldEntriesKeys(nodes: seq<PlanNode>, fns: seq<PlanField>, obj: Value, i: nat, k: nat)
    requires WellFormed(nodes, fns) && i < |nodes| && k <= |nodes[i].fields|
    requires FieldEntries(nodes, fns, obj, i, k).Ok?
    ensures var es := FieldEntries(nodes, fns, obj, i, k).value;
      && KeysDistinct(es)
      && forall key :: key in Keys(es) <==> FieldSelects(nodes, fns, i, k, key)
  {
    if k > 0 {
      FieldEntriesKeys(nodes, fns, obj, i, k - 1);
      FieldSelectsStep(nodes, fns, i, k);
    }
  }

  lemma FieldSelectsStep(nodes: seq<PlanNode>, fns: seq<PlanField>, i: nat, k: nat)
    requires WellFormed(nodes, fns) && i < |nodes| && 0 < k <= |nodes[i].fields|
    ensures var f := fns[nodes[i].fields[k - 1]];
      forall key :: FieldSelects(nodes, fns, i, k, key) <==>
        FieldSelects(nodes, fns, i, k - 1, key) || (Select in f.commands && f.name == key)
  {
    var f := fns[nodes[i].fields[k - 1]];
    forall key
      ensures FieldSelects(nodes, fns, i, k, key) <==>
                FieldSelects(nodes, fns, i, k - 1, key) || (Select in f.commands && f.name == key)
    {
      if FieldSelects(nodes, fns, i, k, key) {
        var j :| 0 <= j < k && Select in fns[nodes[i].fields[j]].commands && fns[nodes[i].fields[j]].name == key;
        if j < k - 1 {
          assert FieldSelects(nodes, fns, i, k - 1, key);
        }
      }
      if FieldSelects(nodes, fns, i, k - 1, key) {
        var j :| 0 <= j < k - 1 && Select in fns[nodes[i].fields[j]].commands && fns[nodes[i].fields[j]].name == key;
        assert 0 <= j < k;
      }
      if Select in f.commands && f.name == key {
        assert 0 <= k - 1 < k;
      }
    }
  }

  lemma ChildSelectsStep(nodes: seq<PlanNode>, fns: seq<PlanField>, obj: Value, i: nat, k: nat)
    requires WellFormed(nodes, fns) && i < |nodes| && 0 < k <= |nodes[i].children|
    ensures var c := nodes[i].children[k - 1];
      forall key :: ChildSelects(nodes, fns, obj, i, k, key) <==>
        ChildSelects(nodes, fns, obj, i, k - 1, key)
        || (Select in nodes[c].commands && nodes[c].name == key && IsRelated(GetAttr(obj, key)))
  {
    var c := nodes[i].children[k - 1];
    forall key
      ensures ChildSelects(nodes, fns, obj, i, k, key) <==>
                ChildSelects(nodes, fns, obj, i, k - 1, key)
                || (Select in nodes[c].commands && nodes[c].name == key && IsRelated(GetAttr(obj, key)))
    {
      if ChildSelects(nodes, fns, obj, i, k, key) {
        var j :| 0 <= j < k && Select in nodes[nodes[i].children[j]].commands
          && nodes[nodes[i].children[j]].name == key && IsRelated(GetAttr(obj, key));
        if j < k - 1 {
          assert ChildSelects(nodes, fns, obj, i, k - 1, key);
        }
      }
      if ChildSelects(nodes, fns, obj, i, k - 1, key) {
        var j :| 0 <= j < k - 1 && Select in nodes[nodes[i].children[j]].commands
          && nodes[nodes[i].children[j]].name == key && IsRelated(GetAttr(obj, key));
        assert 0 <= j < k;
      }
      if Select in nodes[c].commands && nodes[c].name == key && IsRelated(GetAttr(obj, key)) {
        assert 0 <= k - 1 < k;
      }
    }
  }

  /** A selected child's attribute turns into a key exactly when it is an
      instance or a select query. */
  lemma ChildJsonSome(nodes: seq<PlanNode>, fns: seq<PlanField>, c: nat, v: Value)
    requires WellFormed(nodes, fns) && c < |nodes| && ChildJson(nodes, fns, c, v).Ok?
    ensures ChildJson(nodes, fns, c, v).value.Some? <==> (v.Instance? || v.Rows?)
  {
  }

  lemma {:induction false} ChildEntriesKeys(nodes: seq<PlanNode>, fns: seq<PlanField>, obj: Value, i: nat, k: nat, es0: seq<Entry>)
    requires WellFormed(nodes, fns) && i < |nodes| && k <= |nodes[i].children|
    requires ChildEntries(nodes, fns, obj, i, k, es0).Ok?
    ensures var es := ChildEntries(nodes, fns, obj, i, k, es0).value;
      && (KeysDistinct(es0) ==> KeysDistinct(es))
      && forall key :: key in Keys(es) <==> key in Keys(es0) || ChildSelects(nodes, fns, obj, i, k, key)
  {
    if k > 0 {
      ChildEntriesKeys(nodes, fns, obj, i, k - 1, es0);
      var c := nodes[i].children[k - 1];
      var n := nodes[c].name;
      if Select in nodes[c].commands {
        ChildJsonSome(nodes, fns, c, GetAttr(obj, n).value);
      }
      ChildSelectsStep(nodes, fns, obj, i, k);
    }
  }

  /** The keys of the object made for node `i` are exactly the names of
      its SELECT-tagged field nodes and of those SELECT-tagged children
      whose attribute is an instance or a select query; no key appears
      twice. Untagged nodes, such as those only grouped or ordered by,
      and children whose attribute is anything else add no key. */
  lemma GenerateKeys(nodes: seq<PlanNode>, fns: seq<PlanField>, obj: Value, i: nat)
    requires WellFormed(nodes, fns) && i < |nodes|
    requires Generate(nodes, fns, obj, i).Ok?
    ensures Generate(nodes, fns, obj, i).value.Object?
    ensures var es := Generate(nodes, fns, obj, i).value.entries;
      && KeysDistinct(es)
      && forall key :: key in Keys(es) <==>
           FieldSelects(nodes, fns, i, |nodes[i].fields|, key)
           || ChildSelects(nodes, fns, obj, i, |nodes[i].children|, key)
  {
    var es0 := FieldEntries(nodes, fns, obj, i, |nodes[i].fields|).value;
    FieldEntriesKeys(nodes, fns, obj, i, |nodes[i].fields|);
    ChildEntriesKeys(nodes, fns, obj, i, |nodes[i].children|, es0);
  }

  // -----------------------------------------------------------------------
  // Values

  lemma {:induction false} FieldEntriesValues(nodes: seq<PlanNode>, fns: seq<PlanField>, obj: Value, i: nat, k: nat)
    requires WellFormed(nodes, fns) && i < |nodes| && k <= |nodes[i].fields|
    requires FieldEntries(nodes, fns, obj, i, k).Ok?
    ensures forall j :: 0 <= j < k && Select in fns[nodes[i].fields[j]].commands ==>
      var n := fns[nodes[i].fields[j]].name;
      GetAttr(obj, n).Ok? && Lookup(FieldEntries(nodes, fns, obj, i, k).value, n) == Some(Plain(GetAttr(obj, n).value))
  {
    if k > 0 {
      FieldEntriesValues(nodes, fns, obj, i, k - 1);
    }
  }

  lemma {:induction false} ChildEntriesKeep(nodes: seq<PlanNode>, fns: seq<PlanField>, obj: Value, i: nat, k: nat, es0: seq<Entry>)
    requires WellFormed(nodes, fns) && i < |nodes| && k <= |nodes[i].children|
    requires ChildEntries(nodes, fns, obj, i, k, es0).Ok?
    ensures forall key :: !ChildSelects(nodes, fns, obj, i, k, key) ==>
      Lookup(ChildEntries(nodes, fns, obj, i, k, es0).value, key) == Lookup(es0, key)
  {
    if k > 0 {
      ChildEntriesKeep(nodes, fns, obj, i, k - 1, es0);
      var c := nodes[i].children[k - 1];
      var n := nodes[c].name;
      if Select in nodes[c].commands {
        ChildJsonSome(nodes, fns, c, GetAttr(obj, n).value);
      }
      ChildSelectsStep(nodes, fns, obj, i, k);
    }
  }

  lemma {:induction false} ChildEntriesValues(nodes: seq<PlanNode>, fns: seq<PlanField>, obj: Value, i: nat, k: nat, es0: seq<Entry>)
    requires WellFormed(nodes, fns) && i < |nodes| && k <= |nodes[i].children|
    requires ChildNamesDistinct(nodes, i)
    requires ChildEntries(nodes, fns, obj, i, k, es0).Ok?
    ensures forall j :: 0 <= j < k && Select in nodes[nodes[i].children[j]].commands ==>
      var c := nodes[i].children[j];
      && GetAttr(obj, nodes[c].name).Ok?
      && ChildJson(nodes, fns, c, GetAttr(obj, nodes[c].name).value).Ok?
      && (ChildJson(nodes, fns, c, GetAttr(obj, nodes[c].name).value).value.Some? ==>
            Lookup(ChildEntries(nodes, fns, obj, i, k, es0).value, nodes[c].name)
              == ChildJson(nodes, fns, c, GetAttr(obj, nodes[c].name).value).value)
  {
    if k > 0 {
      ChildEntriesValues(nodes, fns, obj, i, k - 1, es0);
      assert forall j :: 0 <= j < k - 1 ==> nodes[nodes[i].children[j]].name != nodes[nodes[i].children[k - 1]].name;
    }
  }

  /** What each key of the object made for node `i` holds. A SELECT-tagged
      field node's key holds the row's attribute of that name, unless a
      selected child of the same name took the key. When the children
      carry distinct names, a SELECT-tagged child whose attribute is an
      instance or a select query holds what that attribute turns into:
      the nested object or the list of nested objects. */
  lemma GenerateValues(nodes: seq<PlanNode>, fns: seq<PlanField>, obj: Value, i: nat)
    requires WellFormed(nodes, fns) && i < |nodes|
    requires Generate(nodes, fns, obj, i).Ok?
    ensures Generate(nodes, fns, obj, i).value.Object?
    ensures var es := Generate(nodes, fns, obj, i).value.entries;
      forall j :: 0 <= j < |nodes[i].fields| && Select in fns[nodes[i].fields[j]].commands
                  && !ChildSelects(nodes, fns, obj, i, |nodes[i].children|, fns[nodes[i].fields[j]].name) ==>
        var n := fns[nodes[i].fields[j]].name;
        GetAttr(obj, n).Ok? && Lookup(es, n) == Some(Plain(GetAttr(obj, n).value))
    ensures ChildNamesDistinct(nodes, i) ==>
      var es := Generate(nodes, fns, obj, i).value.entries;
      forall j :: 0 <= j < |nodes[i].children| && Select in nodes[nodes[i].children[j]].commands ==>
        var c := nodes[i].children[j];
        var v := GetAttr(obj, nodes[c].name);
        && v.Ok? && ChildJson(nodes, fns, c, v.value).Ok?
        && (ChildJson(nodes, fns, c, v.value).value.Some? ==> Lookup(es, nodes[c].name) == ChildJson(nodes, fns, c, v.value).value)
  {
    var es0 := FieldEntries(nodes, fns, obj, i, |nodes[i].fields|).value;
    FieldEntriesValues(nodes, fns, obj, i, |nodes[i].fields|);
    ChildEntriesKeep(nodes, fns, obj, i, |nodes[i].children|, es0);
    if ChildNamesDistinct(nodes, i) {
      ChildEntriesValues(nodes, fns, obj, i, |nodes[i].children|, es0);
    }
  }

  /** On a tree the builder made, where a node never has two children of
      the same name, every SELECT-tagged child whose attribute is an
      instance or a select query holds what that attribute turns into. */
  lemma GenerateValuesInPlan(cat: Peewee.Catalog, p: Plan, obj: Value, i: nat)
    requires PlanOk(cat, p) && i < |p.nodes|
    requires Generate(p.nodes, p.fieldNodes, obj, i).Ok?
    ensures var es := Generate(p.nodes, p.fieldNodes, obj, i).value.entries;
      forall j :: 0 <= j < |p.nodes[i].children| && Select in p.nodes[p.nodes[i].children[j]].commands ==>
        var c := p.nodes[i].children[j];
        var v := GetAttr(obj, p.nodes[c].name);
        && v.Ok? && ChildJson(p.nodes, p.fieldNodes, c, v.value).Ok?
        && (ChildJson(p.nodes, p.fieldNodes, c, v.value).value.Some? ==>
              Lookup(es, p.nodes[c].name) == ChildJson(p.nodes, p.fieldNodes, c, v.value).value)
  {
    assert ChildNamesDistinct(p.nodes, i);
    GenerateValues(p.nodes, p.fieldNodes, obj, i);
  }

  // -----------------------------------------------------------------------
  // Children

  /** The rows of a to-many child become a list with one object per row,
      in the rows' order, made from the row itself or, when the child has
      a shadow name, from the junction row's attribute of that name; the
      list fails exactly when one of the rows does. */
  lemma RowsJsonFacts(nodes: seq<PlanNode>, fns: seq<PlanField>, c: nat, rows: seq<Value>, n: nat)
    requires WellFormed(nodes, fns) && c < |nodes| && n <= |rows|
    ensures RowsJson(nodes, fns, c, rows, n).Ok? <==>
      forall k :: 0 <= k < n ==>
        RowTarget(nodes[c], rows[k]).Ok? && Generate(nodes, fns, RowTarget(nodes[c], rows[k]).value, c).Ok?
    ensures RowsJson(nodes, fns, c, rows, n).Ok? ==>
      var js := RowsJson(nodes, fns, c, rows, n).value;
      && |js| == n
      && forall k :: 0 <= k < n ==> Generate(nodes, fns, RowTarget(nodes[c], rows[k]).value, c) == Ok(js[k])
  {
    RowsJsonOk(nodes, fns, c, rows, n);
    if RowsJson(nodes, fns, c, rows, n).Ok? {
      RowsJsonValues(nodes, fns, c, rows, n);
    }
  }

  lemma {:induction false} RowsJsonOk(nodes: seq<PlanNode>, fns: seq<PlanField>, c: nat, rows: seq<Value>, n: nat)
    requires WellFormed(nodes, fns) && c < |nodes| && n <= |rows|
    ensures RowsJson(nodes, fns, c, rows, n).Ok? <==>
      forall k :: 0 <= k < n ==>
        RowTarget(nodes[c], rows[k]).Ok? && Generate(nodes, fns, RowTarget(nodes[c], rows[k]).value, c).Ok?
    decreases n
  {
    if n > 0 {
      RowsJsonOk(nodes, fns, c, rows, n - 1);
    }
  }

  lemma {:induction false} RowsJsonValues(nodes: seq<PlanNode>, fns: seq<PlanField>, c: nat, rows: seq<Value>, n: nat)
    requires WellFormed(nodes, fns) && c < |nodes| && n <= |rows|
    requires RowsJson(nodes, fns, c, rows, n).Ok?
    ensures var js := RowsJson(nodes, fns, c, rows, n).value;
      && |js| == n
      && forall k :: 0 <= k < n ==>
           RowTarget(nodes[c], rows[k]).Ok? && Generate(nodes, fns, RowTarget(nodes[c], rows[k]).value, c) == Ok(js[k])
    decreases n
  {
    if n > 0 {
      RowsJsonValues(nodes, fns, c, rows, n - 1);
      var prev := RowsJson(nodes, fns, c, rows, n - 1).value;
      var js := RowsJson(nodes, fns, c, rows, n).value;
      assert js[..n - 1] == prev;
    }
  }

  /** A to-one child's instance becomes its nested object; a to-many
      child's select query becomes the list of its rows' objects, one per
      row, in order; anything else is left out. */
  lemma ChildJsonFacts(nodes: seq<PlanNode>, fns: seq<PlanField>, c: nat, v: Value)
    requires WellFormed(nodes, fns) && c < |nodes|
    ensures v.Instance? ==>
      (ChildJson(nodes, fns, c, v).Ok? <==> Generate(nodes, fns, v, c).Ok?)
      && (Generate(nodes, fns, v, c).Ok? ==> ChildJson(nodes, fns, c, v) == Ok(Some(Generate(nodes, fns, v, c).value)))
    ensures v.Rows? ==>
      && (ChildJson(nodes, fns, c, v).Ok? <==>
            forall k :: 0 <= k < |v.rows| ==>
              RowTarget(nodes[c], v.rows[k]).Ok? && Generate(nodes, fns, RowTarget(nodes[c], v.rows[k]).value, c).Ok?)
      && (ChildJson(nodes, fns, c, v).Ok? ==>
            && ChildJson(nodes, fns, c, v).value.Some? && ChildJson(nodes, fns, c, v).value.value.List?
            && var js := ChildJson(nodes, fns, c, v).value.value.items;
               && |js| == |v.rows|
               && forall k :: 0 <= k < |js| ==> Generate(nodes, fns, RowTarget(nodes[c], v.rows[k]).value, c) == Ok(js[k]))
    ensures !v.Instance? && !v.Rows? ==> ChildJson(nodes, fns, c, v) == Ok(None)
  {
    if v.Rows? {
      RowsJsonFacts(nodes, fns, c, v.rows, |v.rows|);
    }
  }

  // -----------------------------------------------------------------------
  // Only selected attributes are read

  /** `obj` and `obj'` agree on every attribute a SELECT-tagged field node
      or child of `i` names. */
  predicate AgreeOnSelected(nodes: seq<PlanNode>, fns: seq<PlanField>, i: nat, obj: Value, obj': Value)
    requires WellFormed(nodes, fns) && i < |nodes|
  {
    && (forall j :: 0 <= j < |nodes[i].fields| && Select in fns[nodes[i].fields[j]].commands ==>
          GetAttr(obj, fns[nodes[i].fields[j]].name) == GetAttr(obj', fns[nodes[i].fields[j]].name))
    && (forall j :: 0 <= j < |nodes[i].children| && Select in nodes[nodes[i].children[j]].commands ==>
          GetAttr(obj, nodes[nodes[i].children[j]].name) == GetAttr(obj', nodes[nodes[i].children[j]].name))
  }

  lemma {:induction false} FieldEntriesReads(nodes: seq<PlanNode>, fns: seq<PlanField>, i: nat, k: nat, obj: Value, obj': Value)
    requires WellFormed(nodes, fns) && i < |nodes| && k <= |nodes[i].fields|
    requires AgreeOnSelected(nodes, fns, i, obj, obj')
    ensures FieldEntries(nodes, fns, obj, i, k) == FieldEntries(nodes, fns, obj', i, k)
  {
    if k > 0 {
      FieldEntriesReads(nodes, fns, i, k - 1, obj, obj');
    }
  }

  lemma {:induction false} ChildEntriesReads(nodes: seq<PlanNode>, fns: seq<PlanField>, i: nat, k: nat, es0: seq<Entry>, obj: Value, obj': Value)
    requires WellFormed(nodes, fns) && i < |nodes| && k <= |nodes[i].children|
    requires AgreeOnSelected(nodes, fns, i, obj, obj')
    ensures ChildEntries(nodes, fns, obj, i, k, es0) == ChildEntries(nodes, fns, obj', i, k, es0)
  {
    if k > 0 {
      ChildEntriesReads(nodes, fns, i, k - 1, es0, obj, obj');
    }
  }

  /** The object made for node `i` depends only on the row's attributes
      that SELECT-tagged field nodes and children name. */
  lemma GenerateReadsSelected(nodes: seq<PlanNode>, fns: seq<PlanField>, i: nat, obj: Value, obj': Value)
    requires WellFormed(nodes, fns) && i < |nodes|
    requires AgreeOnSelected(nodes, fns, i, obj, obj')
    ensures Generate(nodes, fns, obj, i) == Generate(nodes, fns, obj', i)
  {
    FieldEntriesReads(nodes, fns, i, |nodes[i].fields|, obj, obj');
    var f := FieldEntries(nodes, fns, obj, i, |nodes[i].fields|);
    if f.Ok? {
      ChildEntriesReads(nodes, fns, i, |nodes[i].children|, f.value, obj, obj');
    }
  }
}
