/** The `User` and `Project` models of server/models.py as a catalog: their
    columns, the two foreign keys of `Project` (`owner` to `User`,
    `forked_from` to `Project` itself) and the backrefs peewee adds for
    them. The `_name` and `_type` attributes the planners read are not set
    in that file; here `_name` is the registry key and `_type` follows the
    `add_model` decorator. */
module Schema {
  import opened Wrappers
  import opened ModelRegister
  import opened Peewee
  import QB = QueryBuilder
  import QT = QueryTree
  import LQ = LegacyQueryBuilder

  const UserInfo := ModelInfo("user", EntityModel, "id",
    map["login" := PlainField, "company" := PlainField, "state" := PlainField, "city" := PlainField,
        "location" := PlainField, "created_at" := PlainField],
    map["projects" := Backref("Project", "owner")],
    map[])

  const ProjectInfo := ModelInfo("project", EntityModel, "id",
    map["url" := PlainField, "owner" := ForeignKey("User"), "name" := PlainField, "description" := PlainField,
        "forked_from" := ForeignKey("Project"), "created_at" := PlainField],
    map["forks" := Backref("Project", "forked_from")],
    map[])

  /** The model classes by class name. */
  const Models: Catalog := map["User" := UserInfo, "Project" := ProjectInfo]

  /** What `mr.add_model` leaves in the registry: the classes under their
      snake_case names. */
  const Registry: map<string, ModelClass> := map[
    "user" := ModelClass("User", "users"), "project" := ModelClass("Project", "projects")]

  lemma UserOk()
    ensures "User" in Models && ModelOk(Models, "User")
  {
    assert BackrefOk(Models, "User", Backref("Project", "owner"));
  }

  lemma ProjectOk()
    ensures "Project" in Models && ModelOk(Models, "Project")
  {
    assert BackrefOk(Models, "Project", Backref("Project", "forked_from"));
  }

  /** Every foreign key of the schema leads to a model of it, every backref
      to the foreign key that made it, and the registry hands out only
      these classes. */
  lemma SchemaValid()
    ensures ValidCatalog(Models) && RegistryInCatalog(Models, Registry)
  {
    UserOk();
    ProjectOk();
  }

  /** `project { forked_from.forked_from }` from the root. The first
      `forked_from` finds `Project` in `used_models` already, so its child
      is bound to the first alias and joined on the root's foreign key; the
      second, from that child, is bound to a second alias and joined on the
      first alias's foreign key. The condition builder.py:95-101 writes
      for the second step names the class `Project` itself, which is
      neither end of that join, and so ties the second alias to the root
      row instead of to the first alias. */
  lemma ForkedFromTwice()
    ensures ValidCatalog(Models) && "Project" in Models
    ensures var root := QB.RootPlan(Models, "Project", 0);
      var s1 := QB.ForeignKeyStep(Models, root, 0, "forked_from", "Project");
      var p0, p1 := Aliased("Project", 0), Aliased("Project", 1);
      && s1.node == 1 && s1.plan.nodes[1].model == p0
      && s1.plan.joins == [Join(Canonical("Project"), p0, KeyEquals(FieldRef(Canonical("Project"), "forked_from"), FieldRef(p0, "id")))]
      && var s2 := QB.ForeignKeyStep(Models, s1.plan, 1, "forked_from", "Project");
         && s2.plan.nodes[s2.node].model == p1
         && s2.plan.joins == s1.plan.joins + [Join(p0, p1, KeyEquals(FieldRef(p0, "forked_from"), FieldRef(p1, "id")))]
         && QB.ForeignKeyConditionAsWritten(p0, "forked_from", p1, "id")
              == KeyEquals(FieldRef(Canonical("Project"), "forked_from"), FieldRef(p1, "id"))
         && s2.plan.joins[1] != Join(p0, p1, QB.ForeignKeyConditionAsWritten(p0, "forked_from", p1, "id"))
         && !JoinIsLocal(Join(p0, p1, QB.ForeignKeyConditionAsWritten(p0, "forked_from", p1, "id")))
  {
    SchemaValid();
    var root := QB.RootPlan(Models, "Project", 0);
    assert QT.ChildNamed(root.nodes, 0, "forked_from").None?;
    var s1 := QB.ForeignKeyStep(Models, root, 0, "forked_from", "Project");
    assert QT.ChildNamed(s1.plan.nodes, 1, "forked_from").None?;
    QB.ForeignKeyConditionAgrees(Aliased("Project", 0), "forked_from", Aliased("Project", 1), "id");
    QB.ForeignKeyConditionAsWrittenFromAlias(Aliased("Project", 0), "forked_from", Aliased("Project", 1), "id");
  }

  /** The same path through the builder of server/query_builder.py. Its
      second n:1 join, as query_builder.py:90 writes it, names the class
      `Project` and not the first alias; the model's join names the first
      alias. */
  lemma LegacyForkedFromTwice()
    ensures ValidCatalog(Models) && "Project" in Models
    ensures var root := LQ.RootPlan(Models, "Project", 0);
      var s1 := LQ.ForeignKeyStep(Models, root, 0, "forked_from", "Project");
      var p0, p1 := Aliased("Project", 0), Aliased("Project", 1);
      && s1.node == 1 && s1.plan.nodes[1].model == p0
      && s1.plan.joins == [Join(Canonical("Project"), p0, KeyEquals(FieldRef(Canonical("Project"), "forked_from"), FieldRef(p0, "id")))]
      && var s2 := LQ.ForeignKeyStep(Models, s1.plan, 1, "forked_from", "Project");
         && s2.plan.nodes[s2.node].model == p1
         && s2.plan.joins == s1.plan.joins + [Join(p0, p1, KeyEquals(FieldRef(p0, "forked_from"), FieldRef(p1, "id")))]
         && s2.plan.joins[1] != Join(p0, p1, QB.ForeignKeyConditionAsWritten(p0, "forked_from", p1, "id"))
         && !JoinIsLocal(Join(p0, p1, QB.ForeignKeyConditionAsWritten(p0, "forked_from", p1, "id")))
  {
    SchemaValid();
    var root := LQ.RootPlan(Models, "Project", 0);
    assert LQ.ChildNamed(root.nodes, 0, "forked_from").None?;
    var s1 := LQ.ForeignKeyStep(Models, root, 0, "forked_from", "Project");
    assert LQ.ChildNamed(s1.plan.nodes, 1, "forked_from").None?;
    QB.ForeignKeyConditionAgrees(Aliased("Project", 0), "forked_from", Aliased("Project", 1), "id");
    QB.ForeignKeyConditionAsWrittenFromAlias(Aliased("Project", 0), "forked_from", Aliased("Project", 1), "id");
  }
}
