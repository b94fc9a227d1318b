/** What the two query planners (server/query/builder.py and
    server/query_builder.py) see of peewee. The model metadata they inspect
    (`_meta.fields`, `_meta.backrefs`, `_type`, `_name`, `_other_field`,
    `_meta.primary_key`) becomes an explicit catalog. The query they build
    becomes a value: the model it selects from, the joins in the order they
    were added, the group-by and order-by expressions, the limit and the
    explicit selection. */
module Peewee {
  import opened Wrappers
  import opened ModelRegister
  import Common
  import Parser

  // -----------------------------------------------------------------------
  // The catalog

  /** `_type`: an entity model, or a junction table of an n:m relation. */
  datatype ModelKind = EntityModel | NmRelation

  /** An entry of `_meta.fields`: a column, or a `ForeignKeyField` whose
      `rel_model` is the catalog entry `target`. */
  datatype FieldKind = PlainField | ForeignKey(target: string)

  /** A backref of a model is a foreign key `fkField` declared on the model
      `source` that points at it. */
  datatype Backref = Backref(source: string, fkField: string)

  /** One model class: its `_name`, its `_type`, the name of its primary key,
      its fields by name, its backrefs by backref name and, for a junction,
      `_other_field` as a map from one foreign key to the other. */
  datatype ModelInfo = ModelInfo(
    name: string,
    kind: ModelKind,
    primaryKey: string,
    fields: map<string, FieldKind>,
    backrefs: map<string, Backref>,
    otherField: map<string, string>)

  /** The model classes, keyed by class name. */
  type Catalog = map<string, ModelInfo>

  /** A backref is consistent when its source exists, declares the foreign
      key it names and, for a junction, knows the junction's other foreign
      key. */
  predicate BackrefOk(cat: Catalog, m: string, b: Backref)
  {
    && b.source in cat
    && b.fkField in cat[b.source].fields
    && cat[b.source].fields[b.fkField] == ForeignKey(m)
    && (cat[b.source].kind == NmRelation ==>
          && b.fkField in cat[b.source].otherField
          && cat[b.source].otherField[b.fkField] in cat[b.source].fields
          && cat[b.source].fields[cat[b.source].otherField[b.fkField]].ForeignKey?)
  }

  predicate ModelOk(cat: Catalog, m: string)
    requires m in cat
  {
    && (forall f :: f in cat[m].fields && cat[m].fields[f].ForeignKey? ==> cat[m].fields[f].target in cat)
    && (forall b :: b in cat[m].backrefs ==> BackrefOk(cat, m, cat[m].backrefs[b]))
  }

  /** What peewee's metaclass guarantees: every relation leads to a model
      that exists. */
  predicate ValidCatalog(cat: Catalog)
  {
    forall m :: m in cat ==> ModelOk(cat, m)
  }

  /** Every class the registry hands out is described by the catalog. */
  predicate RegistryInCatalog(cat: Catalog, models: map<string, ModelClass>)
  {
    forall k :: k in models ==> models[k].className in cat
  }

  // -----------------------------------------------------------------------
  // Models, fields and joins as the query sees them

  /** A model in a query: the class itself, or the `id`-th object that
      `Model.alias()` returned. */
  datatype ModelRef = Canonical(model: string) | Aliased(model: string, id: nat)

  /** `getattr(model_or_alias, name)`: a field bound to a model in the
      query. */
  datatype FieldRef = FieldRef(owner: ModelRef, name: string)

  /** The `on` argument of `join_from`: an explicit equality, used as it
      is, or a foreign key field from which peewee derives the condition
      between the two joined models. */
  datatype JoinOn = KeyEquals(left: FieldRef, right: FieldRef) | ForeignKeyOn(fk: FieldRef)

  /** `query.join_from(source, target, on=...)`. */
  datatype Join = Join(source: ModelRef, target: ModelRef, on: JoinOn)

  /** A join condition speaks only of the two models the join connects. */
  predicate JoinIsLocal(j: Join)
  {
    match j.on
    case KeyEquals(l, r) => l.owner in {j.source, j.target} && r.owner in {j.source, j.target}
    case ForeignKeyOn(fk) => fk.owner in {j.source, j.target}
  }

  /** What `_add_to_node` hands back: a field bound to a model, or a model. */
  datatype Selected = FieldSelected(field: FieldRef) | ModelSelected(model: ModelRef)

  /** An entry of the selection list: a bare value, or
      `fn.<Aggregate>(value).alias(name)`. */
  datatype Projection = Bare(value: Selected) | Aggregate(aggregator: Parser.Aggregator, argument: Selected, alias: string)

  /** The peewee query as a value. `selection == None` is `model.select()`
      with no explicit columns. */
  datatype PeeweeQuery = PeeweeQuery(
    from: ModelRef,
    joins: seq<Join>,
    groupBy: seq<Selected>,
    orderBy: seq<Selected>,
    limit: Option<nat>,
    selection: Option<seq<Projection>>)

  /** `model.select()`. */
  function SelectFrom(m: ModelRef): (q: PeeweeQuery)
    ensures q.from == m && q.joins == [] && q.groupBy == [] && q.orderBy == []
    ensures q.limit.None? && q.selection.None?
  {
    PeeweeQuery(m, [], [], [], None, None)
  }

  // -----------------------------------------------------------------------
  // Errors

  /** Why planning stops: the parser's `SyntaxError`, the registry's
      `KeyError`, the `ValueError` of unpacking an empty path, or one of the
      two `AssertionError`s of `_add_to_node`. */
  datatype BuildError =
    | SyntaxError
    | UnknownModel(missing: KeyError)
    | EmptyPath
    | NoChildren(field: string, model: string)
    | NoSuchField(field: string, model: string)

  // -----------------------------------------------------------------------
  // Aliasing

  datatype Joined = Joined(usedModels: seq<string>, aliases: nat, ref: ModelRef)

  /** Picks the identity under which `model` joins the query: the class
      itself the first time, recorded in `used_models`; a fresh alias every
      later time. `aliases` counts the aliases made so far. */
  function JoinModel(usedModels: seq<string>, aliases: nat, model: string): (j: Joined)
    ensures j.ref.model == model
    ensures j.ref.Canonical? <==> model !in usedModels
    ensures j.ref.Aliased? ==> j.ref.id == aliases
    ensures j.ref.Canonical? ==> j.usedModels == usedModels + [model] && j.aliases == aliases
    ensures j.ref.Aliased? ==> j.usedModels == usedModels && j.aliases == aliases + 1
    ensures model in j.usedModels
    ensures Distinct(usedModels) ==> Distinct(j.usedModels)
  {
    if model !in usedModels then Joined(usedModels + [model], aliases, Canonical(model))
    else Joined(usedModels, aliases + 1, Aliased(model, aliases))
  }

  /** The names `builder.py` and `query_builder.py` give aggregated
      columns. */
  function AggregateAlias(a: Parser.Aggregator): (alias: string)
    ensures alias == Common.Lower(Parser.AggregatorKeyword(a)[..|Parser.AggregatorKeyword(a)| - 1])
  {
    match a
    case Sum => "sum"
    case Avg => "avg"
    case Count => "count"
    case Min => "min"
    case Max => "max"
  }

  /** A selection entry: bare without an aggregator, otherwise the
      aggregate aliased by its lower-case name. */
  function ProjectionOf(s: Selected, aggregator: Option<Parser.Aggregator>): (p: Projection)
    ensures aggregator.None? ==> p == Bare(s)
    ensures aggregator.Some? ==>
      p.Aggregate? && p.argument == s && p.aggregator == aggregator.value && p.alias == AggregateAlias(aggregator.value)
  {
    match aggregator
    case None => Bare(s)
    case Some(a) => Aggregate(a, s, AggregateAlias(a))
  }
}
