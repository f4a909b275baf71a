/** The scenario-scoped context that the hooks share, reduced to the two
    fields the core writes: the admitted scenario variant and the cached
    behaviour binding. */
module Hooks {
  import opened Terms
  import opened ScenarioAdmission
  import opened Pickplace

  /** The four parameter strings of the behaviour step. */
  datatype BehaviourParams = BehaviourParams(
    agents: string, objects: string, pickWorkspaces: string, placeWorkspaces: string)

  class ScenarioContext {
    var currentScenario: Option<ScenarioVariant>
    /** The behaviour of the cached binding, once one is loaded. */
    var behaviourModel: PickplaceBehaviour?
    /** The parameters the cached binding was loaded with. */
    ghost var loadedWith: Option<BehaviourParams>

    /** A cached behaviour keeps its class invariant. */
    ghost predicate Valid()
      reads this, behaviourModel
    {
      behaviourModel != null ==> behaviourModel.Valid()
    }

    constructor ()
      ensures currentScenario == None && behaviourModel == null && loadedWith == None
      ensures Valid()
    {
      currentScenario := None;
      behaviourModel := null;
      loadedWith := None;
    }

    /** `before_scenario`: on success the admitted variant becomes the
        current scenario; on failure the context is left as it was. */
    method BeforeScenario(
      name: string,
      expand: string -> Option<Uri>,
      loadVariant: Uri -> Option<ScenarioVariant>) returns (r: Outcome<Failure>)
      modifies this`currentScenario
      ensures var admitted := AdmitScenario(name, expand, loadVariant);
              && (r.Pass? <==> admitted.Ok?)
              && (admitted.Ok? ==> currentScenario == Some(admitted.value))
              && (admitted.Err? ==> r == Fail(admitted.error) && currentScenario == old(currentScenario))
    {
      var admitted := AdmitScenario(name, expand, loadVariant);
      if admitted.Err? {
        return Fail(admitted.error);
      }
      currentScenario := Some(admitted.value);
      return Pass;
    }

    /** `behaviour_mockup`. `loaded` is the behaviour that the execution
        model's `load_behaviour_impl` yields for `params`; it is taken only
        when no binding is cached yet, and a cached binding is reused
        whatever `params` are. The behaviour is then reset and stepped until
        finished. */
    method BehaviourMockup(params: BehaviourParams, loaded: PickplaceBehaviour)
      requires Valid() && loaded.Valid()
      modifies this`behaviourModel, this`loadedWith, loaded, behaviourModel
      ensures old(behaviourModel) != null ==>
                behaviourModel == old(behaviourModel) && loadedWith == old(loadedWith)
      ensures old(behaviourModel) == null ==>
                behaviourModel == loaded && loadedWith == Some(params)
      ensures old(behaviourModel) != null ==>
                behaviourModel.State() == old(behaviourModel.State()).Reset().Run()
      ensures old(behaviourModel) == null ==>
                behaviourModel.State() == old(loaded.State()).Reset().Run()
      ensures behaviourModel != loaded ==> unchanged(loaded)
      ensures currentScenario == old(currentScenario)
      ensures Valid()
    {
      if behaviourModel == null {
        behaviourModel := loaded;
        loadedWith := Some(params);
      }
      var bhv := behaviourModel;
      ghost var binding := loadedWith;
      ghost var target := bhv.State().Reset().Run();
      bhv.Reset();
      var finished := bhv.IsFinished();
      while !finished
        invariant bhv == behaviourModel && loadedWith == binding
        invariant bhv.State().Run() == target
        invariant finished <==> bhv.State().IsFinished()
        invariant bhv != loaded ==> unchanged(loaded)
        invariant bhv.Valid()
        decreases bhv.counter
      {
        bhv.Step();
        finished := bhv.IsFinished();
      }
    }
  }

  /** A binding loaded for one set of parameters is still the one used when
      the step runs again with other parameters: the second behaviour is
      never touched, and the first is reset and run twice. */
  method RunTwice(first: BehaviourParams, second: BehaviourParams,
                  a: PickplaceBehaviour, b: PickplaceBehaviour) returns (ctx: ScenarioContext)
    requires a != b && a.Valid() && b.Valid()
    modifies a, b
    ensures ctx.behaviourModel == a && ctx.loadedWith == Some(first)
    ensures unchanged(b)
    ensures a.State() == old(a.State()).Reset().Run().Reset().Run()
  {
    ctx := new ScenarioContext();
    ctx.BehaviourMockup(first, a);
    ctx.BehaviourMockup(second, b);
  }
}
