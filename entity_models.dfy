/** Entity models as the hooks see them: an entity's declared model types,
    the attribute-model ids grouped by type, and the attribute models by id.
    The vocabulary URIs come from rdf_utils and bdd_dsl.models.urirefs; only
    their being distinct matters here, so they stand as placeholder text. */
module EntityModels {
  import opened Terms

  /** Model type of a Python module-attribute model. */
  const PyTypeModuleAttr: Uri := "py:ModuleAttribute"
  /** Predicate naming the Python module. */
  const PyPredModuleName: Uri := "py:module-name"
  /** Predicate naming the attribute inside that module. */
  const PyPredAttrName: Uri := "py:attribute-name"
  /** Model type of a resource that has a filesystem path. */
  const SimTypeResPath: Uri := "sim:ResourceWithPath"
  /** Predicate holding that path. */
  const SimPredPath: Uri := "sim:path"

  /** An attribute model: its id and its values per attribute predicate. */
  datatype AttrModel = AttrModel(id: Uri, attrs: map<Uri, seq<Term>>)
  {
    predicate HasAttr(key: Uri) { key in attrs }
  }

  /** An entity (object, agent or workspace) with its attribute models. */
  datatype EntityModel = EntityModel(
    id: Uri,
    modelTypes: set<Uri>,
    modelTypeToId: map<Uri, seq<Uri>>,
    models: map<Uri, AttrModel>)

  /** The first attribute model of type `t` attached to `e`; it fails when
      no model of that type is attached, or when the first id of that type
      has no model. */
  function LoadFirstModelByType(e: EntityModel, t: Uri): (r: Result<AttrModel, Failure>)
    ensures r.Ok? <==> t in e.modelTypeToId && |e.modelTypeToId[t]| > 0
                       && e.modelTypeToId[t][0] in e.models
    ensures r.Ok? ==> r.value == e.models[e.modelTypeToId[t][0]]
  {
    if t !in e.modelTypeToId || |e.modelTypeToId[t]| == 0 then Err(NoModelOfType(t, e.id))
    else if e.modelTypeToId[t][0] !in e.models then Err(MissingKey(e.modelTypeToId[t][0], e.id))
    else Ok(e.models[e.modelTypeToId[t][0]])
  }
}
