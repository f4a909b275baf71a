# bdd-dsl execution mockup, modelled in Dafny

This project models `src/bdd_dsl/execution/mockup.py` of bdd-dsl, the mock
implementation of the behave hooks and step definitions that run a
pick-and-place scenario described as a graph of scenes, objects, agents and
workspaces:

- `before_scenario`: the scenario-variant name is cut from the scenario name
  at the first `" -- "`, expanded to a URI, the variant is loaded, its scene
  must have objects, workspaces and agents, and attribute loaders are
  registered on the scene's model loaders (`scenario_admission.dfy`,
  `hooks.dfy`).
- `given_objects_mockup`, `given_agents_mockup`, `is_located_at_mockup`:
  loops of assertions over the entities' attribute models
  (`attribute_checks.dfy`). For objects and agents, every Python
  module-attribute model listed for an entity must exist and name a module
  and an attribute. For objects, the first resource-path model must also
  carry a path. For the objects of `is_located_at_mockup`, only the first
  module-attribute model is checked, and only for objects that declare that
  type.
- `PickplaceBehaviourMockup`: a counter-bounded behaviour whose `step`
  reports a pick and a place and counts down, with `reset` and `is_finished`
  (`pickplace.dfy`), and the `behaviour_mockup` step, which caches the
  behaviour binding on the context and drives the behaviour with
  `reset` and `step` until `is_finished` (`hooks.dfy`).

The behaviour is specified by the `Machine` datatype (counter, ceiling,
participant ids and the reports emitted so far) and functions on it; the
class `PickplaceBehaviour` keeps the same state in fields, with a ghost
record of the printed reports, and each of its methods is proved to follow
those functions. The validation loops are methods proved equal to the first
failure of a per-element check (`Terms.FirstFailure`), and each check is
proved to accept exactly the entities a quantified predicate describes.

Collaborators whose code is not part of this model are parameters: the
namespace expansion of a compact name (`expand`, `evt`), the loading of a
scenario variant (`loadVariant`), of an object model from the scene
(`loadObj`), of entity models from a step table (the `objs`/`agns`
sequences), the results of `parse_str_param` (sequences of `Term`), the
workspaces known to the context (`workspaces`, used by `IsLocatedAt`), and
the behaviour that the execution model's `load_behaviour_impl` yields
(`loaded`).

Behaviour of the code worth knowing:
- `step` has no guard: stepping a finished behaviour drives the counter
  below zero (`Pickplace.StepEffect`).
- The behaviour binding is cached once per context, not per parameter set:
  a later call reuses it whatever its parameters
  (`Hooks.ScenarioContext.BehaviourMockup`, `Hooks.RunTwice`).
- In `given_objects_mockup` the loop over the resource-path model ids
  ignores its loop variable and re-checks the first resource-path model on
  every iteration, so a later resource-path model without a path is accepted
  (`AttributeChecks.SecondPathModelNotInspected`). `load_first_model_by_type`
  is the accessor for a type with one model; with a single resource-path
  model the loop checks it once, so this is modelled as behaviour, not as a
  defect.
- The counter never rises above `max_count`: construction starts at it,
  `reset` returns to it and `step` only lowers it
  (`Pickplace.CeilingInvariant`, the class invariant
  `PickplaceBehaviour.Valid`).

## Model

| member | source | states |
|---|---|---|
| `Terms.FirstFailureMeaning` | src/bdd_dsl/execution/mockup.py:89-107 | a loop of assertions passes iff every element passes; on failure it reports the failure of the first failing element, all earlier ones having passed |
| `EntityModels.LoadFirstModelByType` | src/bdd_dsl/execution/mockup.py:147 | the first model of a type is found iff the type has ids and its first id has a model, and it is that model |
| `ScenarioAdmission.IndexOf` | src/bdd_dsl/execution/mockup.py:54 | the result is an occurrence of the separator with none before it, or there is no occurrence at all |
| `ScenarioAdmission.Split` | src/bdd_dsl/execution/mockup.py:54-55 | splitting always yields at least one piece (so the assertion on the split's length never fails), no piece contains the separator, the first piece is the text before the leftmost separator, and a text without separator is its own single piece |
| `ScenarioAdmission.JoinSplit` | src/bdd_dsl/execution/mockup.py:54 | joining the pieces with the separator gives the scenario name back |
| `ScenarioAdmission.VariantName` | src/bdd_dsl/execution/mockup.py:54-56 | the variant name is a prefix of the scenario name: everything before the first `" -- "`, or the whole name when it has none |
| `ScenarioAdmission.VariantNameOfOutlineRow` | src/bdd_dsl/execution/mockup.py:52-56 | the rendered row name `"outline -- examples@3"` yields the variant name `"outline"` |
| `ScenarioAdmission.CheckScene` | src/bdd_dsl/execution/mockup.py:66-74 | the scene passes iff it has objects, workspaces and agents; otherwise the first missing category, in that order, is reported with the scene's id |
| `ScenarioAdmission.Register` | src/bdd_dsl/execution/mockup.py:76-79 | registering loaders keeps the existing table as a prefix and the result holds exactly the old and the added loaders |
| `ScenarioAdmission.RegisterAppendsNew` | src/bdd_dsl/execution/mockup.py:76-79 | what registration appends holds no loader already registered and no loader twice, in the order of first occurrence in the added list |
| `ScenarioAdmission.RegisteredLoaders` | src/bdd_dsl/execution/mockup.py:76-79 | objects gain the path, config and module-attribute loaders; agents gain the module-attribute loader and nothing else |
| `ScenarioAdmission.RegisterIdempotent` | src/bdd_dsl/execution/mockup.py:76-79 | registering the same loaders twice is registering them once |
| `ScenarioAdmission.AdmitScenario` | src/bdd_dsl/execution/mockup.py:45-79 | admission succeeds iff the variant name expands, the variant loads and its scene is usable. Each failure is reported with its own error: an unexpandable name, a variant that does not load, and otherwise the scene check's error. The admitted variant keeps the loaded scene. Its object loaders are the old ones with the path, config and module-attribute loaders registered in that order. Its agent loaders are the old ones with only the module-attribute loader registered |
| `ScenarioAdmission.IncompleteSceneRejected` | src/bdd_dsl/execution/mockup.py:62-74 | a loaded variant whose scene lacks objects, workspaces or agents is rejected with the scene check's error |
| `AttributeChecks.PyModelsOutcomeMeaning` | src/bdd_dsl/execution/mockup.py:92-100 | the module-attribute check passes iff the entity declares no module-attribute type, or that type is listed in `model_type_to_id` (otherwise the lookup fails) and every id listed for it has a model naming both module and attribute |
| `AttributeChecks.PathModelsOutcomeMeaning` | src/bdd_dsl/execution/mockup.py:102-107 | the resource-path check passes iff the entity declares no resource-path type, or that type is listed in `model_type_to_id` and either lists no id or its first id has a model carrying a path |
| `AttributeChecks.ObjectOutcomeMeaning` | src/bdd_dsl/execution/mockup.py:92-107 | one object passes iff both its module-attribute models and its first resource-path model are well formed |
| `AttributeChecks.CheckPyModels` | src/bdd_dsl/execution/mockup.py:92-100 | the inner loop over module-attribute model ids reports a declared type missing from `model_type_to_id`, then the first missing model, module name or attribute name, and passes iff none is missing |
| `AttributeChecks.CheckPathModels` | src/bdd_dsl/execution/mockup.py:102-107 | the inner loop over resource-path model ids reports a declared type missing from `model_type_to_id` or the first model's missing path; it passes iff the type is not declared, or it is listed and either lists no id or its first model carries a path |
| `AttributeChecks.GivenObjects` | src/bdd_dsl/execution/mockup.py:83-107 | the object step passes iff every object is accepted, and otherwise reports the first failure of the first rejected object |
| `AttributeChecks.GivenAgents` | src/bdd_dsl/execution/mockup.py:110-127 | the agent step passes iff, for every agent that declares the module-attribute type, that type is listed in `model_type_to_id` (otherwise the lookup fails), every id listed for it has a model (otherwise the lookup fails) and that model names module and attribute; otherwise it reports the first failure |
| `AttributeChecks.AcceptedObjectModelsNamed` | src/bdd_dsl/execution/mockup.py:92-100 | every module-attribute model of an object the step accepted exists and has both the module-name and the attribute-name predicate |
| `AttributeChecks.SecondPathModelNotInspected` | src/bdd_dsl/execution/mockup.py:102-107 | an object whose second resource-path model has no path is still accepted |
| `AttributeChecks.IsLocatedAt` | src/bdd_dsl/execution/mockup.py:130-164 | the step passes iff every object loads and, when it declares the module-attribute type, its first module-attribute model exists and names module and attribute (objects that do not declare the type pass), every workspace is known to the context, and the event expands; otherwise the first failure in that order is reported |
| `Pickplace.InitialState` | src/bdd_dsl/execution/mockup.py:183-184 | after construction the counter equals the ceiling, which is 5 unless `max_count` is given |
| `Pickplace.Uris` | src/bdd_dsl/execution/mockup.py:188-190 | the collected ids are the parsed URIs, one per element, in order |
| `Pickplace.CollectUris` | src/bdd_dsl/execution/mockup.py:186-208 | an id-list loop succeeds iff every parsed element is a URI, keeping them all in order; otherwise it fails on the first element that is not one, naming the list's role |
| `Pickplace.PickplaceBehaviour.constructor` | src/bdd_dsl/execution/mockup.py:183-208 | a new behaviour is in the initial state for its ceiling and participants, with no reports, and satisfies the invariant counter <= max_count |
| `Pickplace.PickplaceBehaviour.Load` | src/bdd_dsl/execution/mockup.py:173-210 | construction succeeds iff all four parsed lists hold only URIs, giving a fresh behaviour in the initial state; otherwise it fails on the first offending list, in the order agents, objects, pick workspaces, place workspaces |
| `Pickplace.PickplaceBehaviour.IsFinished` | src/bdd_dsl/execution/mockup.py:212-213 | the behaviour is finished iff its counter is at most 0, and asking changes nothing |
| `Pickplace.PickplaceBehaviour.Reset` | src/bdd_dsl/execution/mockup.py:215-216 | the new state is the old state with the counter restored to the ceiling; the invariant counter <= max_count is kept |
| `Pickplace.PickplaceBehaviour.Step` | src/bdd_dsl/execution/mockup.py:218-231 | the new state is the old state stepped once; the invariant counter <= max_count is kept |
| `Pickplace.StepEffect` | src/bdd_dsl/execution/mockup.py:218-231 | a step lowers the counter by exactly 1, appends a pick report and then a place report naming the participants, keeps ids and ceiling, and takes a finished behaviour below 0 |
| `Pickplace.ResetEffect` | src/bdd_dsl/execution/mockup.py:215-216 | reset sets the counter to the ceiling from any state, changes nothing else, is idempotent, and leaves the behaviour unfinished iff the ceiling is positive |
| `Pickplace.StepsEffect` | src/bdd_dsl/execution/mockup.py:218-231 | n steps take n off the counter and append n pick/place cycles |
| `Pickplace.RunIsSteps` | src/bdd_dsl/execution/mockup.py:265-266 | the stepping loop performs exactly max(counter, 0) steps |
| `Pickplace.CyclesAlternate` | src/bdd_dsl/execution/mockup.py:227-229 | n steps emit 2n reports, pick at even and place at odd positions |
| `Pickplace.Driven` | src/bdd_dsl/execution/mockup.py:264-266 | reset then the loop: with ceiling m > 0 exactly m steps, 2m reports and counter 0; with m <= 0 no step and counter m; always finished |
| `Pickplace.FinishedExactlyAtCeiling` | src/bdd_dsl/execution/mockup.py:212-231 | after reset with a positive ceiling the behaviour is finished after n steps iff n reaches the ceiling, and a further reset makes it unfinished |
| `Pickplace.CeilingInvariant` | src/bdd_dsl/execution/mockup.py:183-231 | reset establishes counter <= max_count from any state, and a step, any number of steps and the driver loop keep it |
| `Pickplace.TwoCycleScenario` | src/bdd_dsl/execution/mockup.py:218-231 | with one agent, object, pick and place workspace and `max_count = 2`, the driver loop reports pick, place, pick, place and ends with counter 0 |
| `Hooks.ScenarioContext.BeforeScenario` | src/bdd_dsl/execution/mockup.py:45-80 | on admission the current scenario becomes the admitted variant; on failure the error is returned and the current scenario is unchanged |
| `Hooks.ScenarioContext.BehaviourMockup` | src/bdd_dsl/execution/mockup.py:234-266 | the binding is loaded only when none is cached, and a cached one is reused whatever the parameters; the behaviour ends in the state reached by reset and running to completion, and the cached behaviour keeps counter <= max_count |
| `Hooks.RunTwice` | src/bdd_dsl/execution/mockup.py:239-266 | a second call with other parameters reuses the first binding, leaves the newly offered behaviour untouched and resets and runs the first again |

## Left out

- `time.sleep` in `step` and the printed text: each step is recorded as two abstract reports carrying the participant lists; rendering URIs with the namespace manager and joining them with "or" is not modelled.
- `before_all_mockup`: it only creates the execution model, the user-story loader and a generic model loader and stores them on the context.
- The assertions that harness fields exist on the context (`model_graph`, `us_loader`, `table`, `current_scenario`, `execution_model`, and the `isinstance` checks on them) and the failures of `load_str_params`: test-harness plumbing.
- `try_expand_curie`, `parse_str_param`, `load_obj_models_from_table`, `load_agn_models_from_table`, `UserStoryLoader.load_scenario_variant`, `Scene.load_obj_model` and `ExecutionModel.load_behaviour_impl`: their code is not part of this model; they are parameters of the members that use them.
- `EntityModels.LoadFirstModelByType`: the body of `load_first_model_by_type` is not part of this model; it is taken to return the model of the first id listed for the type and to fail when there is none.
- `ScenarioAdmission.Register`: the body of `register_attr_loaders` is not part of this model; it is taken to append each loader not yet registered, in order, without clearing the table.
- The vocabulary URIs (module-attribute type, module-name and attribute-name predicates, resource-path type and path predicate) are defined outside this file; they stand as distinct placeholder strings.
- `Pickplace.PickplaceBehaviour.Load`: on failure it states which list failed and that the error is an unexpected term; which element failed is stated by `Pickplace.CollectUris`.
- A `max_count` keyword that is not an integer: Python would accept any value; the model takes an integer (Python integers are unbounded, as Dafny's `int` is).
- The wrapper object that `load_behaviour_impl` returns around the behaviour: the model caches the behaviour itself.
- `Hooks.ScenarioContext.BehaviourMockup`: the offered behaviour `loaded` has a non-null type, so the assertion that the binding's behaviour is not `None` is not modelled; a binding without a behaviour is outside the model.
