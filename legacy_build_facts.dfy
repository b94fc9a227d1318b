/** What `QueryBuilder.__init__` of server/query_builder.py promises as a
    whole, proved about `BuildParsed`: an unknown model stops it before a
    tree exists; otherwise the tree grows from a root named after the
    model, and a successful query selects from that model, joins what the
    tree joined, groups and orders by the values of its clauses in clause
    order, selects the projections of the selected paths and has the limit
    1000. Only the model and the field paths of the three clauses decide
    the outcome. */
module LegacyBuildFacts {
  import opened Wrappers
  import opened ModelRegister
  import opened Peewee
  import opened LegacyQueryBuilder
  import opened LegacyPlanFacts
  import QB = QueryBuilder
  import QC = QueryCallFacts
  import Parser

  /** How a stage started from plan `p` for root model `m` ends: the plan
      has only grown, and a successful query selects from `m` with the
      plan's joins and the limit 1000. */
  predicate StageEnds(cat: Catalog, m: string, p: LegacyPlan, o: Outcome)
  {
    && o.plan.Some? && Grown(p, o.plan.value)
    && (o.result.Ok? ==>
          && o.result.value.from == Canonical(m) && o.result.value.joins == o.plan.value.joins
          && o.result.value.limit == Some(1000))
  }

  lemma StageEndsGrown(cat: Catalog, m: string, p: LegacyPlan, q: LegacyPlan, o: Outcome)
    requires Grown(p, q) && StageEnds(cat, m, q, o)
    ensures StageEnds(cat, m, p, o)
  {
    GrownTrans(p, q, o.plan.value);
  }

  /** The order-by loop and the final query: the order-by paths' values,
      in order, are its order-by; the group-by values and the selection
      list are those handed in. */
  lemma OrderByStageFacts(cat: Catalog, m: string, p: LegacyPlan, selections: seq<Projection>, groupBy: seq<Selected>, q: Parser.Query)
    requires ValidCatalog(cat) && PlanOk(cat, p)
    ensures var o := OrderByStage(cat, m, p, selections, groupBy, q);
      && StageEnds(cat, m, p, o)
      && (o.result.Ok? ==>
            && o.result.value.groupBy == groupBy && o.result.value.selection == Some(selections)
            && AllExisting(cat, o.plan.value, QB.ClausePaths(q.orderBy), o.result.value.orderBy))
  {
    ResolveAllGrows(cat, p, QB.ClausePaths(q.orderBy));
    ResolveAllRecords(cat, p, QB.ClausePaths(q.orderBy));
  }

  /** The group-by loop and what follows: the grouped paths lead, in the
      final tree, to the query's group-by values. */
  lemma GroupByStageFacts(cat: Catalog, m: string, p: LegacyPlan, selections: seq<Projection>, q: Parser.Query)
    requires ValidCatalog(cat) && PlanOk(cat, p)
    ensures var o := GroupByStage(cat, m, p, selections, q);
      && StageEnds(cat, m, p, o)
      && (o.result.Ok? ==>
            && o.result.value.selection == Some(selections)
            && AllExisting(cat, o.plan.value, QB.ClausePaths(q.groupBy), o.result.value.groupBy)
            && AllExisting(cat, o.plan.value, QB.ClausePaths(q.orderBy), o.result.value.orderBy))
  {
    var gb := ResolveAll(cat, p, QB.ClausePaths(q.groupBy));
    ResolveAllGrows(cat, p, QB.ClausePaths(q.groupBy));
    if gb.result.Ok? {
      ResolveAllRecords(cat, p, QB.ClausePaths(q.groupBy));
      OrderByStageFacts(cat, m, gb.plan, selections, gb.result.value, q);
      var o := OrderByStage(cat, m, gb.plan, selections, gb.result.value, q);
      StageEndsGrown(cat, m, p, gb.plan, o);
      if o.result.Ok? {
        AllExistingGrown(cat, gb.plan, o.plan.value, QB.ClausePaths(q.groupBy), gb.result.value);
      }
    }
  }

  /** The selected paths resolve in plan `p`, changing nothing, and the
      selection list projects their values with the clause's
      aggregators. */
  predicate SelectsSettled(cat: Catalog, p: LegacyPlan, q: Parser.Query, selection: Option<seq<Projection>>)
    requires ValidCatalog(cat) && PlanOk(cat, p)
  {
    var r := ResolveAll(cat, p, QC.SelectPaths(q));
    && r.plan == p && r.result.Ok?
    && selection == Some(QB.Selections(QB.SelectionFields(q.select), r.result.value))
  }

  /** The select loop and what follows. */
  lemma SelectStageFacts(cat: Catalog, m: string, p: LegacyPlan, q: Parser.Query)
    requires ValidCatalog(cat) && PlanOk(cat, p)
    ensures var o := SelectStage(cat, m, p, q);
      && StageEnds(cat, m, p, o)
      && (o.result.Ok? ==>
            && SelectsSettled(cat, o.plan.value, q, o.result.value.selection)
            && AllExisting(cat, o.plan.value, QB.ClausePaths(q.groupBy), o.result.value.groupBy)
            && AllExisting(cat, o.plan.value, QB.ClausePaths(q.orderBy), o.result.value.orderBy))
  {
    var paths := QC.SelectPaths(q);
    var sel := ResolveAll(cat, p, paths);
    ResolveAllGrows(cat, p, paths);
    if sel.result.Ok? {
      var fs := QB.SelectionFields(q.select);
      ResolveAllRecords(cat, p, paths);
      GroupByStageFacts(cat, m, sel.plan, QB.Selections(fs, sel.result.value), q);
      var o := GroupByStage(cat, m, sel.plan, QB.Selections(fs, sel.result.value), q);
      StageEndsGrown(cat, m, p, sel.plan, o);
      if o.result.Ok? {
        AllExistingGrown(cat, sel.plan, o.plan.value, paths, sel.result.value);
        ExistingAllResolve(cat, o.plan.value, paths, sel.result.value);
      }
    }
  }

  /** `__init__` after parsing. A model the registry does not know raises
      its `KeyError` before any tree is built. Otherwise the tree grows from
      a root named after the model and bound to the class itself, which is
      in `used_models` from the start; a successful query selects from that
      class, joins what the tree joined, carries the selection list, the
      group-by and order-by values of the final tree in clause order and
      the limit 1000. */
  lemma BuildParsedFacts(cat: Catalog, models: map<string, ModelClass>, aliases: nat, q: Parser.Query)
    requires ValidCatalog(cat) && RegistryInCatalog(cat, models)
    ensures var o := BuildParsed(cat, models, aliases, q);
      && (o.plan.None? <==> q.model.name !in models)
      && (o.plan.None? ==> o.result == Err(UnknownModel(KeyError(q.model.name))))
      && (o.plan.Some? ==>
            var m := models[q.model.name].className;
            var pl := o.plan.value;
            && Grown(RootPlan(cat, m, aliases), pl)
            && pl.nodes[0].name == cat[m].name && pl.nodes[0].model == Canonical(m) && pl.nodes[0].parent.None?
            && m in pl.usedModels
            && (o.result.Ok? ==>
                  && o.result.value.from == Canonical(m) && o.result.value.joins == pl.joins
                  && o.result.value.limit == Some(1000)
                  && SelectsSettled(cat, pl, q, o.result.value.selection)
                  && AllExisting(cat, pl, QB.ClausePaths(q.groupBy), o.result.value.groupBy)
                  && AllExisting(cat, pl, QB.ClausePaths(q.orderBy), o.result.value.orderBy)))
  {
    if q.model.name in models {
      var m := models[q.model.name].className;
      var root := RootPlan(cat, m, aliases);
      SelectStageFacts(cat, m, root, q);
      var o := BuildParsed(cat, models, aliases, q);
      assert NodeGrown(root.nodes[0], o.plan.value.nodes[0]);
      PrefixKeeps(root.usedModels, o.plan.value.usedModels, m);
    }
  }

  lemma OrderByStageReadsOnly(cat: Catalog, m: string, p: LegacyPlan, selections: seq<Projection>, groupBy: seq<Selected>, q: Parser.Query, q': Parser.Query)
    requires ValidCatalog(cat) && PlanOk(cat, p) && QB.ClausePaths(q.orderBy) == QB.ClausePaths(q'.orderBy)
    ensures OrderByStage(cat, m, p, selections, groupBy, q) == OrderByStage(cat, m, p, selections, groupBy, q')
  {
  }

  lemma GroupByStageReadsOnly(cat: Catalog, m: string, p: LegacyPlan, selections: seq<Projection>, q: Parser.Query, q': Parser.Query)
    requires ValidCatalog(cat) && PlanOk(cat, p)
    requires QB.ClausePaths(q.groupBy) == QB.ClausePaths(q'.groupBy) && QB.ClausePaths(q.orderBy) == QB.ClausePaths(q'.orderBy)
    ensures GroupByStage(cat, m, p, selections, q) == GroupByStage(cat, m, p, selections, q')
  {
    var gb := ResolveAll(cat, p, QB.ClausePaths(q.groupBy));
    if gb.result.Ok? {
      OrderByStageReadsOnly(cat, m, gb.plan, selections, gb.result.value, q, q');
    }
  }

  lemma SelectStageReadsOnly(cat: Catalog, m: string, p: LegacyPlan, q: Parser.Query, q': Parser.Query)
    requires ValidCatalog(cat) && PlanOk(cat, p) && QB.SelectionFields(q.select) == QB.SelectionFields(q'.select)
    requires QB.ClausePaths(q.groupBy) == QB.ClausePaths(q'.groupBy) && QB.ClausePaths(q.orderBy) == QB.ClausePaths(q'.orderBy)
    ensures SelectStage(cat, m, p, q) == SelectStage(cat, m, p, q')
  {
    var fs := QB.SelectionFields(q.select);
    var sel := ResolveAll(cat, p, QB.PathsOf(fs));
    if sel.result.Ok? {
      GroupByStageReadsOnly(cat, m, sel.plan, QB.Selections(fs, sel.result.value), q, q');
    }
  }

  /** Only the model's name, the selected paths with their aggregators and
      the field paths of the group-by and order-by clauses decide what
      `__init__` does: the `where` fields it computes are never used, and
      the alias of the model and the join clauses are parsed but not
      read. */
  lemma BuildParsedReadsOnly(cat: Catalog, models: map<string, ModelClass>, aliases: nat, q: Parser.Query, q': Parser.Query)
    requires ValidCatalog(cat) && RegistryInCatalog(cat, models)
    requires q.model.name == q'.model.name && QB.SelectionFields(q.select) == QB.SelectionFields(q'.select)
    requires QB.ClausePaths(q.groupBy) == QB.ClausePaths(q'.groupBy) && QB.ClausePaths(q.orderBy) == QB.ClausePaths(q'.orderBy)
    ensures BuildParsed(cat, models, aliases, q) == BuildParsed(cat, models, aliases, q')
  {
    if q.model.name in models {
      var m := models[q.model.name].className;
      SelectStageReadsOnly(cat, m, RootPlan(cat, m, aliases), q, q');
    }
  }

  /** In particular the `where` clause never changes the outcome. */
  lemma BuildIgnoresWhere(cat: Catalog, models: map<string, ModelClass>, aliases: nat, q: Parser.Query, w: Option<Parser.Expression>)
    requires ValidCatalog(cat) && RegistryInCatalog(cat, models)
    ensures BuildParsed(cat, models, aliases, q.(where := w)) == BuildParsed(cat, models, aliases, q)
  {
    BuildParsedReadsOnly(cat, models, aliases, q.(where := w), q);
  }
}
