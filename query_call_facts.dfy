/** What `QueryBuilder.__call__` of server/query/builder.py promises as a
    whole, proved about `CompileParsed`: an unknown model stops it before a
    tree exists; otherwise the tree grows from a root that is never tagged,
    every grouped and ordered path is in the tree, tagged with its clause,
    in clause order, every selected path is settled in the tree, a
    successful query carries the group-by and order-by values and the limit
    1000, and only the model, the field paths of the three clauses decide
    the outcome. */
module QueryCallFacts {
  import opened Wrappers
  import opened ModelRegister
  import opened QueryTree
  import opened Peewee
  import opened QueryBuilder
  import opened QueryPlanFacts
  import Parser

  /** The paths of the select clause, aggregated or not. */
  function SelectPaths(q: Parser.Query): (ps: seq<Parser.Path>)
    ensures |ps| == |q.select|
    ensures forall k :: 0 <= k < |q.select| ==>
      ps[k] == if q.select[k].FieldItem? then q.select[k].path else q.select[k].field
  {
    PathsOf(SelectionFields(q.select))
  }

  /** Paths that running their loop again would not change: they resolve,
      tagged, to what is already in the plan. */
  predicate Settled(cat: Catalog, p: Plan, paths: seq<Parser.Path>, cmd: QueryCommand)
    requires ValidCatalog(cat) && PlanOk(cat, p)
  {
    ResolveAll(cat, p, paths, cmd) == Resolved(p, ResolveAll(cat, p, paths, cmd).result)
    && ResolveAll(cat, p, paths, cmd).result.Ok?
  }

  lemma SettledFromExisting(cat: Catalog, p: Plan, paths: seq<Parser.Path>, cmd: QueryCommand, vs: seq<Selected>)
    requires ValidCatalog(cat) && PlanOk(cat, p) && AllExisting(cat, p, paths, cmd, vs)
    ensures Settled(cat, p, paths, cmd) && ResolveAll(cat, p, paths, cmd).result == Ok(vs)
  {
    ExistingAllResolve(cat, p, paths, cmd, vs);
  }

  // -----------------------------------------------------------------------
  // Stage by stage

  /** How a stage started from plan `p` and query `base` ends: the plan has
      only grown and its root is not tagged; a failure leaves `base` with
      the joins made so far, a success returns the query it keeps, which is
      `base` with the plan's joins, some group-by and order-by values and
      the limit 1000. */
  predicate StageEnds(cat: Catalog, base: PeeweeQuery, p: Plan, o: Outcome)
    requires PlanOk(cat, p)
  {
    && o.plan.Some? && o.query.Some?
    && Framed(p, o.plan.value, 0)
    && (o.result.Err? ==> o.query.value == base.(joins := o.plan.value.joins))
    && (o.result.Ok? ==>
          && o.query == Some(o.result.value)
          && o.result.value == base.(joins := o.plan.value.joins, groupBy := o.result.value.groupBy,
                                     orderBy := o.result.value.orderBy, limit := Some(1000)))
  }

  lemma StageEndsGrown(cat: Catalog, base: PeeweeQuery, p: Plan, q: Plan, o: Outcome)
    requires PlanOk(cat, p) && PlanOk(cat, q) && Framed(p, q, 0) && StageEnds(cat, base, q, o)
    ensures StageEnds(cat, base, p, o)
  {
    GrownTrans(p, q, o.plan.value);
  }

  /** The order-by loop: on success the order-by paths' values, in order,
      are the query's order-by and the group-by values are those handed
      in. */
  lemma OrderByStageFacts(cat: Catalog, base: PeeweeQuery, p: Plan, groupBy: seq<Selected>, q: Parser.Query)
    requires ValidCatalog(cat) && PlanOk(cat, p)
    ensures var o := OrderByStage(cat, base, p, groupBy, q);
      && StageEnds(cat, base, p, o)
      && (o.result.Ok? ==>
            && o.result.value.groupBy == groupBy
            && AllExisting(cat, o.plan.value, ClausePaths(q.orderBy), OrderBy, o.result.value.orderBy))
  {
    ResolveAllFrame(cat, p, ClausePaths(q.orderBy), OrderBy);
    ResolveAllRecords(cat, p, ClausePaths(q.orderBy), OrderBy);
  }

  /** The group-by loop and what follows: the grouped paths are in the
      final plan, tagged, and their values are the query's group-by. */
  lemma GroupByStageFacts(cat: Catalog, base: PeeweeQuery, p: Plan, q: Parser.Query)
    requires ValidCatalog(cat) && PlanOk(cat, p)
    ensures var o := GroupByStage(cat, base, p, q);
      && StageEnds(cat, base, p, o)
      && (o.result.Ok? ==>
            && AllExisting(cat, o.plan.value, ClausePaths(q.groupBy), GroupBy, o.result.value.groupBy)
            && AllExisting(cat, o.plan.value, ClausePaths(q.orderBy), OrderBy, o.result.value.orderBy))
  {
    var gb := ResolveAll(cat, p, ClausePaths(q.groupBy), GroupBy);
    ResolveAllFrame(cat, p, ClausePaths(q.groupBy), GroupBy);
    if gb.result.Ok? {
      ResolveAllRecords(cat, p, ClausePaths(q.groupBy), GroupBy);
      OrderByStageFacts(cat, base, gb.plan, gb.result.value, q);
      var o := OrderByStage(cat, base, gb.plan, gb.result.value, q);
      StageEndsGrown(cat, base, p, gb.plan, o);
      if o.result.Ok? {
        AllExistingGrown(cat, gb.plan, o.plan.value, ClausePaths(q.groupBy), GroupBy, gb.result.value);
      }
    }
  }

  /** The select loop and what follows: the selected paths are settled in
      the final plan, tagged with `Select`. */
  lemma SelectStageFacts(cat: Catalog, base: PeeweeQuery, p: Plan, q: Parser.Query)
    requires ValidCatalog(cat) && PlanOk(cat, p)
    ensures var o := SelectStage(cat, base, p, q);
      && StageEnds(cat, base, p, o)
      && (o.result.Ok? ==>
            && Settled(cat, o.plan.value, SelectPaths(q), Select)
            && AllExisting(cat, o.plan.value, ClausePaths(q.groupBy), GroupBy, o.result.value.groupBy)
            && AllExisting(cat, o.plan.value, ClausePaths(q.orderBy), OrderBy, o.result.value.orderBy))
  {
    var sel := ResolveAll(cat, p, SelectPaths(q), Select);
    ResolveAllFrame(cat, p, SelectPaths(q), Select);
    if sel.result.Ok? {
      ResolveAllRecords(cat, p, SelectPaths(q), Select);
      GroupByStageFacts(cat, base, sel.plan, q);
      var o := GroupByStage(cat, base, sel.plan, q);
      StageEndsGrown(cat, base, p, sel.plan, o);
      if o.result.Ok? {
        AllExistingGrown(cat, sel.plan, o.plan.value, SelectPaths(q), Select, sel.result.value);
        SettledFromExisting(cat, o.plan.value, SelectPaths(q), Select, sel.result.value);
      }
    }
  }

  lemma OrderByStageReadsOnly(cat: Catalog, base: PeeweeQuery, p: Plan, groupBy: seq<Selected>, q: Parser.Query, q': Parser.Query)
    requires ValidCatalog(cat) && PlanOk(cat, p) && ClausePaths(q.orderBy) == ClausePaths(q'.orderBy)
    ensures OrderByStage(cat, base, p, groupBy, q) == OrderByStage(cat, base, p, groupBy, q')
  {
  }

  lemma GroupByStageReadsOnly(cat: Catalog, base: PeeweeQuery, p: Plan, q: Parser.Query, q': Parser.Query)
    requires ValidCatalog(cat) && PlanOk(cat, p)
    requires ClausePaths(q.groupBy) == ClausePaths(q'.groupBy) && ClausePaths(q.orderBy) == ClausePaths(q'.orderBy)
    ensures GroupByStage(cat, base, p, q) == GroupByStage(cat, base, p, q')
  {
    var gb := ResolveAll(cat, p, ClausePaths(q.groupBy), GroupBy);
    if gb.result.Ok? {
      OrderByStageReadsOnly(cat, base, gb.plan, gb.result.value, q, q');
    }
  }

  lemma SelectStageReadsOnly(cat: Catalog, base: PeeweeQuery, p: Plan, q: Parser.Query, q': Parser.Query)
    requires ValidCatalog(cat) && PlanOk(cat, p) && SelectPaths(q) == SelectPaths(q')
    requires ClausePaths(q.groupBy) == ClausePaths(q'.groupBy) && ClausePaths(q.orderBy) == ClausePaths(q'.orderBy)
    ensures SelectStage(cat, base, p, q) == SelectStage(cat, base, p, q')
  {
    var sel := ResolveAll(cat, p, SelectPaths(q), Select);
    if sel.result.Ok? {
      GroupByStageReadsOnly(cat, base, sel.plan, q, q');
    }
  }

  // -----------------------------------------------------------------------
  // The whole call

  /** `__call__` after parsing. A model the registry does not know raises
      its `KeyError` before any tree is built. Otherwise the tree starts at
      a root named after the model and bound to the class itself, it only
      grows, its root is never tagged, and the query selects from that
      class with no explicit columns: builder.py builds the selection list
      but never attaches it. A successful query has the limit 1000, its
      grouped and ordered paths in the tree in clause order and its
      selected paths settled there. */
  lemma CompileParsedFacts(cat: Catalog, models: map<string, ModelClass>, aliases: nat, q: Parser.Query)
    requires ValidCatalog(cat) && RegistryInCatalog(cat, models)
    ensures var o := CompileParsed(cat, models, aliases, q);
      && (o.plan.None? <==> q.model.name !in models)
      && (o.plan.None? ==> o.result == Err(UnknownModel(KeyError(q.model.name))))
      && (o.plan.Some? ==>
            var m := models[q.model.name].className;
            var pl := o.plan.value;
            && Grown(RootPlan(cat, m, aliases), pl)
            && pl.nodes[0].name == cat[m].name && pl.nodes[0].model == Canonical(m)
            && pl.nodes[0].parent.None? && pl.nodes[0].commands == []
            && m in pl.usedModels
            && o.query.value.from == Canonical(m) && o.query.value.selection.None?
            && (o.result.Err? ==> o.query.value == SelectFrom(Canonical(m)).(joins := pl.joins))
            && (o.result.Ok? ==>
                  && o.query == Some(o.result.value)
                  && o.result.value.limit == Some(1000)
                  && Settled(cat, pl, SelectPaths(q), Select)
                  && AllExisting(cat, pl, ClausePaths(q.groupBy), GroupBy, o.result.value.groupBy)
                  && AllExisting(cat, pl, ClausePaths(q.orderBy), OrderBy, o.result.value.orderBy)))
  {
    if q.model.name in models {
      var m := models[q.model.name].className;
      var root := RootPlan(cat, m, aliases);
      SelectStageFacts(cat, SelectFrom(Canonical(m)), root, q);
      var o := CompileParsed(cat, models, aliases, q);
      assert NodeGrown(root.nodes[0], o.plan.value.nodes[0]);
      assert root.usedModels[0] == m;
    }
  }

  /** Only the model's name and the field paths of the select, group-by and
      order-by clauses decide what `__call__` does: the `where` clause, the
      alias of the model, the aggregators and the join clauses are parsed
      but not used. */
  lemma CompileParsedReadsOnly(cat: Catalog, models: map<string, ModelClass>, aliases: nat, q: Parser.Query, q': Parser.Query)
    requires ValidCatalog(cat) && RegistryInCatalog(cat, models)
    requires q.model.name == q'.model.name && SelectPaths(q) == SelectPaths(q')
    requires ClausePaths(q.groupBy) == ClausePaths(q'.groupBy) && ClausePaths(q.orderBy) == ClausePaths(q'.orderBy)
    ensures CompileParsed(cat, models, aliases, q) == CompileParsed(cat, models, aliases, q')
  {
    if q.model.name in models {
      var m := models[q.model.name].className;
      SelectStageReadsOnly(cat, SelectFrom(Canonical(m)), RootPlan(cat, m, aliases), q, q');
    }
  }

  /** In particular the `where` clause never changes the outcome. */
  lemma CompileIgnoresWhere(cat: Catalog, models: map<string, ModelClass>, aliases: nat, q: Parser.Query, w: Option<Parser.Expression>)
    requires ValidCatalog(cat) && RegistryInCatalog(cat, models)
    ensures CompileParsed(cat, models, aliases, q.(where := w)) == CompileParsed(cat, models, aliases, q)
  {
    CompileParsedReadsOnly(cat, models, aliases, q.(where := w), q);
  }
}
