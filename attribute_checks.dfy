/** The step definitions that validate attribute models:
    `given_objects_mockup`, `given_agents_mockup` and
    `is_located_at_mockup`. Each is a loop of assertions; each method here is
    proved equal to the first failure of a per-element check, and that
    check is proved to accept exactly the entities a quantified predicate
    describes. Loading entity models from a table, parsing parameter
    strings and loading an object model from the scene are passed in. */
module AttributeChecks {
  import opened Terms
  import opened EntityModels

  /* ---------- one Python module-attribute model ---------- */

  /** A module-attribute model must name both the module and the attribute. */
  function PyAttrOutcome(m: AttrModel, owner: Uri, role: Role): Outcome<Failure>
  {
    if !m.HasAttr(PyPredModuleName) then Fail(MissingModuleName(m.id, owner, role))
    else if !m.HasAttr(PyPredAttrName) then Fail(MissingAttrName(m.id, owner, role))
    else Pass
  }

  /** The body of the inner loop over `model_type_to_id[module attribute]`:
      look the id up in `models`, then check the model. */
  function PyModelOutcome(e: EntityModel, role: Role, id: Uri): Outcome<Failure>
  {
    if id !in e.models then Fail(MissingKey(id, e.id))
    else PyAttrOutcome(e.models[id], e.id, role)
  }

  function PyModelCheck(e: EntityModel, role: Role): Uri -> Outcome<Failure>
  {
    id => PyModelOutcome(e, role, id)
  }

  /** The module-attribute part of the object and agent checks. */
  function PyModelsOutcome(e: EntityModel, role: Role): Outcome<Failure>
  {
    if PyTypeModuleAttr !in e.modelTypes then Pass
    else if PyTypeModuleAttr !in e.modelTypeToId then Fail(MissingKey(PyTypeModuleAttr, e.id))
    else FirstFailure(e.modelTypeToId[PyTypeModuleAttr], PyModelCheck(e, role))
  }

  /** Every module-attribute model of `e` exists and names both its module
      and its attribute. */
  predicate PyModelsAccepted(e: EntityModel)
  {
    PyTypeModuleAttr in e.modelTypes ==>
      && PyTypeModuleAttr in e.modelTypeToId
      && forall k :: 0 <= k < |e.modelTypeToId[PyTypeModuleAttr]| ==>
           var id := e.modelTypeToId[PyTypeModuleAttr][k];
           id in e.models
           && e.models[id].HasAttr(PyPredModuleName)
           && e.models[id].HasAttr(PyPredAttrName)
  }

  lemma PyModelsOutcomeMeaning(e: EntityModel, role: Role)
    ensures PyModelsOutcome(e, role).Pass? <==> PyModelsAccepted(e)
  {
    if PyTypeModuleAttr in e.modelTypes && PyTypeModuleAttr in e.modelTypeToId {
      var ids := e.modelTypeToId[PyTypeModuleAttr];
      FirstFailureMeaning(ids, PyModelCheck(e, role));
      assert forall k :: 0 <= k < |ids| ==> PyModelCheck(e, role)(ids[k]) == PyModelOutcome(e, role, ids[k]);
    }
  }

  /* ---------- resource-path models ---------- */

  /** The body of the loop over `model_type_to_id[resource with path]`: it
      loads the FIRST model of that type, whatever the loop variable. */
  function PathOutcome(e: EntityModel): Outcome<Failure>
  {
    match LoadFirstModelByType(e, SimTypeResPath)
    case Err(f) => Fail(f)
    case Ok(m) => if m.HasAttr(SimPredPath) then Pass else Fail(MissingPath(m.id, e.id))
  }

  function PathCheck(e: EntityModel): Uri -> Outcome<Failure>
  {
    _ => PathOutcome(e)
  }

  function PathModelsOutcome(e: EntityModel): Outcome<Failure>
  {
    if SimTypeResPath !in e.modelTypes then Pass
    else if SimTypeResPath !in e.modelTypeToId then Fail(MissingKey(SimTypeResPath, e.id))
    else FirstFailure(e.modelTypeToId[SimTypeResPath], PathCheck(e))
  }

  /** When `e` declares resource-path models, its first one exists and
      carries a path; later ones are not inspected. */
  predicate PathAccepted(e: EntityModel)
  {
    SimTypeResPath in e.modelTypes ==>
      && SimTypeResPath in e.modelTypeToId
      && (|e.modelTypeToId[SimTypeResPath]| > 0 ==>
            var id := e.modelTypeToId[SimTypeResPath][0];
            id in e.models && e.models[id].HasAttr(SimPredPath))
  }

  lemma PathModelsOutcomeMeaning(e: EntityModel)
    ensures PathModelsOutcome(e).Pass? <==> PathAccepted(e)
  {
    if SimTypeResPath in e.modelTypes && SimTypeResPath in e.modelTypeToId {
      var ids := e.modelTypeToId[SimTypeResPath];
      FirstFailureMeaning(ids, PathCheck(e));
      if |ids| > 0 {
        assert PathCheck(e)(ids[0]) == PathOutcome(e);
      }
    }
  }

  /* ---------- given objects / given agents ---------- */

  /** One iteration of the loop in `given_objects_mockup`. */
  function ObjectOutcome(e: EntityModel): Outcome<Failure>
  {
    var py := PyModelsOutcome(e, Object);
    if py.Fail? then py else PathModelsOutcome(e)
  }

  predicate ObjectAccepted(e: EntityModel)
  {
    PyModelsAccepted(e) && PathAccepted(e)
  }

  /** One iteration of the loop in `given_agents_mockup`. */
  function AgentOutcome(e: EntityModel): Outcome<Failure>
  {
    PyModelsOutcome(e, Agent)
  }

  /** The check of one object accepts exactly the objects whose
      module-attribute models name module and attribute and whose first
      resource-path model carries a path. */
  lemma ObjectOutcomeMeaning(e: EntityModel)
    ensures ObjectOutcome(e).Pass? <==> ObjectAccepted(e)
  {
    PyModelsOutcomeMeaning(e, Object);
    PathModelsOutcomeMeaning(e);
  }

  /** The inner loop over the module-attribute model ids of `e`. */
  method CheckPyModels(e: EntityModel, role: Role) returns (r: Outcome<Failure>)
    ensures r == PyModelsOutcome(e, role)
    ensures r.Pass? <==> PyModelsAccepted(e)
  {
    PyModelsOutcomeMeaning(e, role);
    if PyTypeModuleAttr !in e.modelTypes {
      return Pass;
    }
    if PyTypeModuleAttr !in e.modelTypeToId {
      return Fail(MissingKey(PyTypeModuleAttr, e.id));
    }
    var ids := e.modelTypeToId[PyTypeModuleAttr];
    var i := 0;
    while i < |ids|
      invariant 0 <= i <= |ids|
      invariant FirstFailure(ids, PyModelCheck(e, role)) == FirstFailure(ids[i..], PyModelCheck(e, role))
    {
      FirstFailureFrom(ids, i, PyModelCheck(e, role));
      var id := ids[i];
      if id !in e.models {
        return Fail(MissingKey(id, e.id));
      }
      var pyModel := e.models[id];
      if !pyModel.HasAttr(PyPredModuleName) {
        return Fail(MissingModuleName(pyModel.id, e.id, role));
      }
      if !pyModel.HasAttr(PyPredAttrName) {
        return Fail(MissingAttrName(pyModel.id, e.id, role));
      }
      i := i + 1;
    }
    return Pass;
  }

  /** The inner loop over the resource-path model ids of `e`. */
  method CheckPathModels(e: EntityModel) returns (r: Outcome<Failure>)
    ensures r == PathModelsOutcome(e)
    ensures r.Pass? <==> PathAccepted(e)
  {
    PathModelsOutcomeMeaning(e);
    if SimTypeResPath !in e.modelTypes {
      return Pass;
    }
    if SimTypeResPath !in e.modelTypeToId {
      return Fail(MissingKey(SimTypeResPath, e.id));
    }
    var ids := e.modelTypeToId[SimTypeResPath];
    var i := 0;
    while i < |ids|
      invariant 0 <= i <= |ids|
      invariant FirstFailure(ids, PathCheck(e)) == FirstFailure(ids[i..], PathCheck(e))
    {
      FirstFailureFrom(ids, i, PathCheck(e));
      var pathModel := LoadFirstModelByType(e, SimTypeResPath);
      if pathModel.Err? {
        return Fail(pathModel.error);
      }
      if !pathModel.value.HasAttr(SimPredPath) {
        return Fail(MissingPath(pathModel.value.id, e.id));
      }
      i := i + 1;
    }
    return Pass;
  }

  /** `given_objects_mockup` over the object models loaded from the step's
      table: it passes exactly when every object is accepted, and otherwise
      reports the first failure of the first rejected object. */
  method GivenObjects(objs: seq<EntityModel>) returns (r: Outcome<Failure>)
    ensures r == FirstFailure(objs, ObjectOutcome)
    ensures r.Pass? <==> forall i :: 0 <= i < |objs| ==> ObjectAccepted(objs[i])
  {
    FirstFailureMeaning(objs, ObjectOutcome);
    forall i | 0 <= i < |objs| ensures ObjectOutcome(objs[i]).Pass? <==> ObjectAccepted(objs[i]) {
      ObjectOutcomeMeaning(objs[i]);
    }
    var i := 0;
    while i < |objs|
      invariant 0 <= i <= |objs|
      invariant FirstFailure(objs, ObjectOutcome) == FirstFailure(objs[i..], ObjectOutcome)
    {
      FirstFailureFrom(objs, i, ObjectOutcome);
      var py := CheckPyModels(objs[i], Object);
      if py.Fail? {
        return py;
      }
      var path := CheckPathModels(objs[i]);
      if path.Fail? {
        return path;
      }
      i := i + 1;
    }
    return Pass;
  }

  /** `given_agents_mockup` over the agent models loaded from the step's
      table: every module-attribute model of every agent names its module
      and its attribute, or the first that does not is reported. */
  method GivenAgents(agns: seq<EntityModel>) returns (r: Outcome<Failure>)
    ensures r == FirstFailure(agns, AgentOutcome)
    ensures r.Pass? <==> forall i :: 0 <= i < |agns| ==> PyModelsAccepted(agns[i])
  {
    FirstFailureMeaning(agns, AgentOutcome);
    forall i | 0 <= i < |agns| ensures AgentOutcome(agns[i]).Pass? <==> PyModelsAccepted(agns[i]) {
      PyModelsOutcomeMeaning(agns[i], Agent);
    }
    var i := 0;
    while i < |agns|
      invariant 0 <= i <= |agns|
      invariant FirstFailure(agns, AgentOutcome) == FirstFailure(agns[i..], AgentOutcome)
    {
      FirstFailureFrom(agns, i, AgentOutcome);
      var py := CheckPyModels(agns[i], Agent);
      if py.Fail? {
        return py;
      }
      i := i + 1;
    }
    return Pass;
  }

  /** Every module-attribute model of an object that passed
      `given_objects_mockup` names its module and its attribute. */
  lemma AcceptedObjectModelsNamed(objs: seq<EntityModel>, i: nat, k: nat)
    requires FirstFailure(objs, ObjectOutcome).Pass?
    requires i < |objs| && PyTypeModuleAttr in objs[i].modelTypes
    requires PyTypeModuleAttr in objs[i].modelTypeToId
    requires k < |objs[i].modelTypeToId[PyTypeModuleAttr]|
    ensures objs[i].modelTypeToId[PyTypeModuleAttr][k] in objs[i].models
    ensures objs[i].models[objs[i].modelTypeToId[PyTypeModuleAttr][k]].HasAttr(PyPredModuleName)
    ensures objs[i].models[objs[i].modelTypeToId[PyTypeModuleAttr][k]].HasAttr(PyPredAttrName)
  {
    FirstFailureMeaning(objs, ObjectOutcome);
    ObjectOutcomeMeaning(objs[i]);
  }

  /** Only the first resource-path model is inspected: an object whose
      second resource-path model has no path still passes. */
  lemma SecondPathModelNotInspected()
    ensures var e := EntityModel(
              "cube",
              {SimTypeResPath},
              map[SimTypeResPath := ["mesh1", "mesh2"]],
              map["mesh1" := AttrModel("mesh1", map[SimPredPath := []]),
                  "mesh2" := AttrModel("mesh2", map[])]);
            ObjectOutcome(e) == Pass && !e.models["mesh2"].HasAttr(SimPredPath)
  {
  }

  /* ---------- is located at ---------- */

  /** The check of one object URI in `is_located_at_mockup`: its model must
      load, and when it declares module-attribute models, the first one must
      name both module and attribute. */
  function LocatedObjectOutcome(loadObj: Term -> Option<EntityModel>, t: Term): Outcome<Failure>
  {
    match loadObj(t)
    case None => Fail(ObjectNotLoaded(t))
    case Some(e) =>
      if PyTypeModuleAttr !in e.modelTypes then Pass
      else match LoadFirstModelByType(e, PyTypeModuleAttr)
        case Err(f) => Fail(f)
        case Ok(m) => PyAttrOutcome(m, e.id, Object)
  }

  function LocatedObjectCheck(loadObj: Term -> Option<EntityModel>): Term -> Outcome<Failure>
  {
    t => LocatedObjectOutcome(loadObj, t)
  }

  predicate LocatedObjectAccepted(loadObj: Term -> Option<EntityModel>, t: Term)
  {
    && loadObj(t).Some?
    && (PyTypeModuleAttr in loadObj(t).value.modelTypes ==>
          var m := LoadFirstModelByType(loadObj(t).value, PyTypeModuleAttr);
          m.Ok? && m.value.HasAttr(PyPredModuleName) && m.value.HasAttr(PyPredAttrName))
  }

  function WorkspaceOutcome(workspaces: set<Term>, t: Term): Outcome<Failure>
  {
    if t in workspaces then Pass else Fail(UnrecognizedWorkspace(t))
  }

  function WorkspaceCheck(workspaces: set<Term>): Term -> Outcome<Failure>
  {
    t => WorkspaceOutcome(workspaces, t)
  }

  /** The assertions of `is_located_at_mockup`, in source order: the
      objects, then the workspaces, then the event name. */
  function LocatedOutcome(
    objTerms: seq<Term>, loadObj: Term -> Option<EntityModel>,
    wsTerms: seq<Term>, workspaces: set<Term>,
    evtName: string, evt: Option<Uri>): Outcome<Failure>
  {
    var objs := FirstFailure(objTerms, LocatedObjectCheck(loadObj));
    if objs.Fail? then objs
    else
      var wss := FirstFailure(wsTerms, WorkspaceCheck(workspaces));
      if wss.Fail? then wss
      else if evt.None? then Fail(UnparsableEvent(evtName))
      else Pass
  }

  /** `is_located_at_mockup`: `objTerms` and `wsTerms` are the parsed object
      and workspace parameters, `loadObj` the scene's object-model loader,
      `workspaces` the workspaces known to the context and `evt` the
      expansion of the event parameter `evtName`. */
  method IsLocatedAt(
    objTerms: seq<Term>, loadObj: Term -> Option<EntityModel>,
    wsTerms: seq<Term>, workspaces: set<Term>,
    evtName: string, evt: Option<Uri>) returns (r: Outcome<Failure>)
    ensures r == LocatedOutcome(objTerms, loadObj, wsTerms, workspaces, evtName, evt)
    ensures r.Pass? <==>
              && (forall i :: 0 <= i < |objTerms| ==> LocatedObjectAccepted(loadObj, objTerms[i]))
              && (forall i :: 0 <= i < |wsTerms| ==> wsTerms[i] in workspaces)
              && evt.Some?
  {
    FirstFailureMeaning(objTerms, LocatedObjectCheck(loadObj));
    FirstFailureMeaning(wsTerms, WorkspaceCheck(workspaces));
    assert forall i :: 0 <= i < |objTerms| ==>
      LocatedObjectCheck(loadObj)(objTerms[i]) == LocatedObjectOutcome(loadObj, objTerms[i]);
    assert forall i :: 0 <= i < |wsTerms| ==>
      WorkspaceCheck(workspaces)(wsTerms[i]) == WorkspaceOutcome(workspaces, wsTerms[i]);

    var i := 0;
    while i < |objTerms|
      invariant 0 <= i <= |objTerms|
      invariant FirstFailure(objTerms, LocatedObjectCheck(loadObj))
                == FirstFailure(objTerms[i..], LocatedObjectCheck(loadObj))
    {
      FirstFailureFrom(objTerms, i, LocatedObjectCheck(loadObj));
      var objModel := loadObj(objTerms[i]);
      if objModel.None? {
        return Fail(ObjectNotLoaded(objTerms[i]));
      }
      if PyTypeModuleAttr in objModel.value.modelTypes {
        var pyModel := LoadFirstModelByType(objModel.value, PyTypeModuleAttr);
        if pyModel.Err? {
          return Fail(pyModel.error);
        }
        if !pyModel.value.HasAttr(PyPredModuleName) {
          return Fail(MissingModuleName(pyModel.value.id, objModel.value.id, Object));
        }
        if !pyModel.value.HasAttr(PyPredAttrName) {
          return Fail(MissingAttrName(pyModel.value.id, objModel.value.id, Object));
        }
      }
      i := i + 1;
    }

    var j := 0;
    while j < |wsTerms|
      invariant 0 <= j <= |wsTerms|
      invariant FirstFailure(wsTerms, WorkspaceCheck(workspaces))
                == FirstFailure(wsTerms[j..], WorkspaceCheck(workspaces))
    {
      FirstFailureFrom(wsTerms, j, WorkspaceCheck(workspaces));
      if wsTerms[j] !in workspaces {
        return Fail(UnrecognizedWorkspace(wsTerms[j]));
      }
      j := j + 1;
    }

    if evt.None? {
      return Fail(UnparsableEvent(evtName));
    }
    return Pass;
  }
}
