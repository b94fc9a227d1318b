/** The registry that the schema's decorators fill (server/model_register.py):
    models are keyed by the snake_case form of their class name, many-to-many
    junction models by their class name as it is. */
module ModelRegister {
  import opened Wrappers
  import opened Common

  /** A schema class as the registry sees it: only its `__name__` matters
      here; `table` stands for the rest of the class. */
  datatype ModelClass = ModelClass(className: string, table: string)

  /** Indexing with a key that was never registered raises `KeyError`. */
  datatype KeyError = KeyError(key: string)

  predicate Distinct<T(==)>(s: seq<T>)
  {
    forall i, j :: 0 <= i < j < |s| ==> s[i] != s[j]
  }

  class Register {
    /** `_models`: the dictionary, and the order in which its keys were
        first inserted (Python dictionaries keep insertion order). */
    var models: map<string, ModelClass>
    var modelOrder: seq<string>
    /** `_nm_relationships`, with its key order. */
    var nmRelationships: map<string, ModelClass>
    var nmOrder: seq<string>

    ghost predicate Valid()
      reads this
    {
      && Distinct(modelOrder) && (forall k :: k in models <==> k in modelOrder)
      && Distinct(nmOrder) && (forall k :: k in nmRelationships <==> k in nmOrder)
    }

    constructor ()
      ensures Valid()
      ensures models == map[] && modelOrder == []
      ensures nmRelationships == map[] && nmOrder == []
    {
      models, modelOrder := map[], [];
      nmRelationships, nmOrder := map[], [];
    }

    /** `add_model`: registers the class under `camel_to_snake(__name__)`,
        overwriting an earlier class of the same key in place, and hands the
        class back unchanged (it is used as a decorator). */
    method AddModel(model: ModelClass) returns (r: ModelClass)
      requires Valid()
      modifies this
      ensures Valid()
      ensures r == model
      ensures models == old(models)[CamelToSnake(model.className) := model]
      ensures modelOrder == if CamelToSnake(model.className) in old(models) then old(modelOrder)
                            else old(modelOrder) + [CamelToSnake(model.className)]
      ensures nmRelationships == old(nmRelationships) && nmOrder == old(nmOrder)
    {
      var name := CamelToSnake(model.className);
      if name !in models {
        modelOrder := modelOrder + [name];
      }
      models := models[name := model];
      r := model;
    }

    /** `add_nm`: registers a junction class under its own `__name__`; the
        model dictionary, and so membership, lookup and `model_names`, are
        untouched. */
    method AddNm(relationship: ModelClass) returns (r: ModelClass)
      requires Valid()
      modifies this
      ensures Valid()
      ensures r == relationship
      ensures nmRelationships == old(nmRelationships)[relationship.className := relationship]
      ensures nmOrder == if relationship.className in old(nmRelationships) then old(nmOrder)
                         else old(nmOrder) + [relationship.className]
      ensures models == old(models) && modelOrder == old(modelOrder)
    {
      var name := relationship.className;
      if name !in nmRelationships {
        nmOrder := nmOrder + [name];
      }
      nmRelationships := nmRelationships[name := relationship];
      r := relationship;
    }

    /** `model_names`: the registered keys, each once, in first-insertion
        order. */
    function ModelNames(): (names: seq<string>)
      requires Valid()
      reads this
      ensures Distinct(names)
      ensures forall k :: k in names <==> k in models
    {
      modelOrder
    }

    /** `__contains__`. */
    predicate Contains(item: string)
      reads this
    {
      item in models
    }

    /** `__getitem__`: the registered class, or `KeyError`. */
    function GetItem(item: string): (r: Result<ModelClass, KeyError>)
      reads this
      ensures r.Ok? <==> Contains(item)
      ensures r.Ok? ==> r.value == models[item]
      ensures r.Err? ==> r.error == KeyError(item)
    {
      if item in models then Ok(models[item]) else Err(KeyError(item))
    }
  }

  /** How the schema module uses the registry: after decorating `Project`
      and the junction `ProjectMembers`, the key `project` finds the
      `Project` class and the junction is not a model key. */
  method RegisterSchemaExample() returns (project: ModelClass)
    ensures project == ModelClass("Project", "projects")
  {
    var mr := new Register();
    project := mr.AddModel(ModelClass("Project", "projects"));
    var members := mr.AddNm(ModelClass("ProjectMembers", "project_members"));
    CamelToSnakeProject();
    assert mr.Contains("project");
    assert mr.GetItem("project") == Ok(project);
    assert mr.ModelNames() == ["project"];
    assert !mr.Contains("ProjectMembers");
  }
}
