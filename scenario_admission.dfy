/** `before_scenario`: the scenario-variant name is taken from the scenario
    name, expanded to a URI, the variant is loaded, its scene must have
    objects, workspaces and agents, and the attribute loaders are registered
    on the scene's object and agent model loaders. */
module ScenarioAdmission {
  import opened Terms
  import opened EntityModels

  /** A scenario outline renders each row as
      "{outline name} -- {examples name}@{row id}". */
  const ScenarioNameSeparator: string := " -- "

  predicate OccursAt(s: string, sep: string, j: int)
  {
    0 <= j && j + |sep| <= |s| && s[j..j + |sep|] == sep
  }

  predicate Contains(s: string, sep: string)
  {
    exists j :: 0 <= j <= |s| && OccursAt(s, sep, j)
  }

  /** The leftmost position at which `sep` occurs in `s`. */
  function IndexOf(s: string, sep: string): (r: Option<nat>)
    requires |sep| > 0
    ensures r.Some? ==> OccursAt(s, sep, r.value)
    ensures r.Some? ==> forall j :: 0 <= j < r.value ==> !OccursAt(s, sep, j)
    ensures r.None? ==> !Contains(s, sep)
    decreases |s|
  {
    if |s| < |sep| then None
    else if s[..|sep|] == sep then Some(0)
    else
      var rest := IndexOf(s[1..], sep);
      ShiftOccurrence(s, sep);
      match rest
      case None => None
      case Some(i) => Some(i + 1)
  }

  /** An occurrence in `s` at a positive position is one in `s[1..]`. */
  lemma ShiftOccurrence(s: string, sep: string)
    requires |s| > 0
    ensures forall j :: 0 < j ==> (OccursAt(s, sep, j) <==> OccursAt(s[1..], sep, j - 1))
  {
  }

  /** Python's `str.split(sep)` for a non-empty separator: the pieces
      between the occurrences of `sep`, found left to right. The contract
      fixes the first piece (the text before the leftmost occurrence, or
      the whole text); the later pieces are fixed by the recursion. */
  function Split(s: string, sep: string): (r: seq<string>)
    requires |sep| > 0
    ensures |r| > 0
    ensures forall k :: 0 <= k < |r| ==> !Contains(r[k], sep)
    ensures IndexOf(s, sep).None? ==> r == [s]
    ensures IndexOf(s, sep).Some? ==> |r| > 1 && r[0] == s[..IndexOf(s, sep).value]
    decreases |s|
  {
    match IndexOf(s, sep)
    case None => [s]
    case Some(i) =>
      PrefixHasNoOccurrence(s, sep, i);
      [s[..i]] + Split(s[i + |sep|..], sep)
  }

  /** Nothing occurs in the text before the leftmost occurrence. */
  lemma PrefixHasNoOccurrence(s: string, sep: string, i: nat)
    requires |sep| > 0 && i <= |s|
    requires forall j :: 0 <= j < i ==> !OccursAt(s, sep, j)
    ensures !Contains(s[..i], sep)
  {
    if Contains(s[..i], sep) {
      var j :| 0 <= j <= i && OccursAt(s[..i], sep, j);
      assert j + |sep| <= i;
      assert s[..i][j..j + |sep|] == s[j..j + |sep|];
      assert OccursAt(s, sep, j);
    }
  }

  /** Python's `sep.join(parts)`. */
  function Join(parts: seq<string>, sep: string): string
  {
    if |parts| == 0 then ""
    else if |parts| == 1 then parts[0]
    else parts[0] + sep + Join(parts[1..], sep)
  }

  /** Splitting loses nothing: joining the pieces gives the name back. */
  lemma {:induction false} JoinSplit(s: string, sep: string)
    requires |sep| > 0
    ensures Join(Split(s, sep), sep) == s
    decreases |s|
  {
    match IndexOf(s, sep)
    case None =>
    case Some(i) =>
      var tail := s[i + |sep|..];
      JoinSplit(tail, sep);
      assert Split(s, sep) == [s[..i]] + Split(tail, sep);
      assert s == s[..i] + sep + tail;
  }

  /** The compact variant name: the first piece of the scenario name split
      on " -- ", that is, everything before the first separator, or the
      whole name when there is none. */
  function VariantName(name: string): (r: string)
    ensures r <= name
    ensures !Contains(name, ScenarioNameSeparator) ==> r == name
    ensures Contains(name, ScenarioNameSeparator) ==>
              OccursAt(name, ScenarioNameSeparator, |r|)
              && forall j :: 0 <= j < |r| ==> !OccursAt(name, ScenarioNameSeparator, j)
  {
    Split(name, ScenarioNameSeparator)[0]
  }

  /** The rendered scenario name of the first row of examples "examples". */
  lemma VariantNameOfOutlineRow()
    ensures VariantName("outline -- examples@3") == "outline"
  {
    var name := "outline -- examples@3";
    assert OccursAt(name, ScenarioNameSeparator, 7);
    assert name[..7] == "outline";
    forall j | 0 <= j < 7 ensures !OccursAt(name, ScenarioNameSeparator, j) {
      assert name[j + 1] != '-';
    }
    var r := VariantName(name);
    assert |r| == 7;
  }

  /** The attribute loaders that `before_scenario` wires into a scene. */
  datatype AttrLoader = LoadAttrPath | LoadAttrHasConfig | LoadPyModuleAttr

  /** Objects, workspaces and agents of a scene, keyed by URI, and the
      attribute loaders registered on its object and agent model loaders,
      in registration order. */
  datatype Scene = Scene(
    id: Uri,
    objects: map<Uri, EntityModel>,
    workspaces: map<Uri, EntityModel>,
    agents: map<Uri, EntityModel>,
    objLoaders: seq<AttrLoader>,
    agnLoaders: seq<AttrLoader>)

  datatype ScenarioVariant = ScenarioVariant(id: Uri, scene: Scene)

  /** A scene a scenario can run on. */
  predicate SceneUsable(scene: Scene)
  {
    |scene.objects| > 0 && |scene.workspaces| > 0 && |scene.agents| > 0
  }

  /** The three scene assertions, in source order. */
  function CheckScene(scene: Scene): (r: Outcome<Failure>)
    ensures r.Pass? <==> SceneUsable(scene)
    ensures r == Fail(SceneWithoutObject(scene.id)) <==> |scene.objects| == 0
    ensures r == Fail(SceneWithoutWorkspace(scene.id)) <==>
              |scene.objects| > 0 && |scene.workspaces| == 0
    ensures r == Fail(SceneWithoutAgent(scene.id)) <==>
              |scene.objects| > 0 && |scene.workspaces| > 0 && |scene.agents| == 0
  {
    if |scene.objects| == 0 then Fail(SceneWithoutObject(scene.id))
    else if |scene.workspaces| == 0 then Fail(SceneWithoutWorkspace(scene.id))
    else if |scene.agents| == 0 then Fail(SceneWithoutAgent(scene.id))
    else Pass
  }

  /** The position of the first occurrence of `x` in `s`. */
  function FirstIndex(s: seq<AttrLoader>, x: AttrLoader): (i: nat)
    requires x in s
    ensures i < |s| && s[i] == x
    ensures forall j :: 0 <= j < i ==> s[j] != x
  {
    if s[0] == x then 0 else 1 + FirstIndex(s[1..], x)
  }

  /** Registering loaders extends the dispatch table and never clears it;
      `RegisterAppendsNew` says what it appends. */
  function Register(table: seq<AttrLoader>, added: seq<AttrLoader>): (r: seq<AttrLoader>)
    ensures table <= r
    ensures forall l :: l in r <==> l in table || l in added
    decreases |added|
  {
    if added == [] then table
    else Register(if added[0] in table then table else table + [added[0]], added[1..])
  }

  /** The loaders of `added` not yet in the table are appended, each once,
      in the order of their first occurrence in `added`. */
  lemma {:induction false} RegisterAppendsNew(table: seq<AttrLoader>, added: seq<AttrLoader>)
    ensures var r := Register(table, added);
            && (forall i :: |table| <= i < |r| ==> r[i] !in table)
            && (forall i, j :: |table| <= i < j < |r| ==> r[i] != r[j])
            && (forall i, j :: |table| <= i < j < |r| ==>
                  r[i] in added && r[j] in added && FirstIndex(added, r[i]) < FirstIndex(added, r[j]))
    decreases |added|
  {
    if added != [] {
      var next := if added[0] in table then table else table + [added[0]];
      RegisterAppendsNew(next, added[1..]);
      var r := Register(table, added);
      assert r == Register(next, added[1..]);
      forall i | |next| <= i < |r| ensures r[i] in added[1..] && r[i] != added[0] {
      }
      forall i | |table| <= i < |r| && r[i] in added[1..] && r[i] != added[0]
        ensures FirstIndex(added, r[i]) == 1 + FirstIndex(added[1..], r[i])
      {
      }
    }
  }

  /** Registering what is already registered changes nothing, so
      registering twice is registering once. */
  lemma {:induction false} RegisterIdempotent(table: seq<AttrLoader>, added: seq<AttrLoader>)
    ensures Register(Register(table, added), added) == Register(table, added)
  {
    RegisterPresent(Register(table, added), added);
  }

  lemma {:induction false} RegisterPresent(table: seq<AttrLoader>, added: seq<AttrLoader>)
    requires forall l :: l in added ==> l in table
    ensures Register(table, added) == table
    decreases |added|
  {
    if added != [] {
      RegisterPresent(table, added[1..]);
    }
  }

  /** What the registrations of `before_scenario` add: objects gain the
      path, config and module-attribute loaders, agents only the
      module-attribute loader. */
  lemma RegisteredLoaders(objTable: seq<AttrLoader>, agnTable: seq<AttrLoader>)
    ensures var objs := Register(objTable, [LoadAttrPath, LoadAttrHasConfig, LoadPyModuleAttr]);
            && objTable <= objs
            && LoadAttrPath in objs && LoadAttrHasConfig in objs && LoadPyModuleAttr in objs
    ensures var agns := Register(agnTable, [LoadPyModuleAttr]);
            && agnTable <= agns && LoadPyModuleAttr in agns
            && forall l :: l in agns && l !in agnTable ==> l == LoadPyModuleAttr
  {
    var objAdded: seq<AttrLoader> := [LoadAttrPath, LoadAttrHasConfig, LoadPyModuleAttr];
    var objs := Register(objTable, objAdded);
    assert LoadAttrPath in objAdded && LoadAttrHasConfig in objAdded && LoadPyModuleAttr in objAdded;
    var agnAdded: seq<AttrLoader> := [LoadPyModuleAttr];
    var agns := Register(agnTable, agnAdded);
    assert forall l :: l in agnAdded ==> l == LoadPyModuleAttr;
  }

  /** `before_scenario` without the context write: the admitted variant, or
      the first assertion that fails. Expanding a compact name against the
      namespace mapping and loading the variant from the graph are passed
      in. */
  function AdmitScenario(
    name: string,
    expand: string -> Option<Uri>,
    loadVariant: Uri -> Option<ScenarioVariant>): (r: Result<ScenarioVariant, Failure>)
    ensures r.Ok? <==>
              && expand(VariantName(name)).Some?
              && loadVariant(expand(VariantName(name)).value).Some?
              && SceneUsable(loadVariant(expand(VariantName(name)).value).value.scene)
    ensures expand(VariantName(name)).None? ==>
              r == Err(UnparsableScenarioName(VariantName(name)))
    ensures expand(VariantName(name)).Some? && loadVariant(expand(VariantName(name)).value).None? ==>
              r == Err(VariantNotLoaded(expand(VariantName(name)).value))
    ensures expand(VariantName(name)).Some? && loadVariant(expand(VariantName(name)).value).Some? ==>
              var loaded := loadVariant(expand(VariantName(name)).value).value;
              !SceneUsable(loaded.scene) ==> r == Err(CheckScene(loaded.scene).error)
    ensures r.Ok? ==>
              var loaded := loadVariant(expand(VariantName(name)).value).value;
              && r.value.id == loaded.id
              && r.value.scene == loaded.scene.(
                   objLoaders := r.value.scene.objLoaders,
                   agnLoaders := r.value.scene.agnLoaders)
              && SceneUsable(r.value.scene)
              && loaded.scene.objLoaders <= r.value.scene.objLoaders
              && loaded.scene.agnLoaders <= r.value.scene.agnLoaders
              && LoadAttrPath in r.value.scene.objLoaders
              && LoadAttrHasConfig in r.value.scene.objLoaders
              && LoadPyModuleAttr in r.value.scene.objLoaders
              && LoadPyModuleAttr in r.value.scene.agnLoaders
              && r.value.scene.objLoaders ==
                   Register(loaded.scene.objLoaders, [LoadAttrPath, LoadAttrHasConfig, LoadPyModuleAttr])
              && r.value.scene.agnLoaders == Register(loaded.scene.agnLoaders, [LoadPyModuleAttr])
              && (forall l :: l in r.value.scene.agnLoaders && l !in loaded.scene.agnLoaders ==>
                    l == LoadPyModuleAttr)
  {
    var compact := VariantName(name);
    match expand(compact)
    case None => Err(UnparsableScenarioName(compact))
    case Some(uri) =>
      match loadVariant(uri)
      case None => Err(VariantNotLoaded(uri))
      case Some(variant) =>
        match CheckScene(variant.scene)
        case Fail(e) => Err(e)
        case Pass =>
          var scene := variant.scene;
          var objLoaders := Register(scene.objLoaders, [LoadAttrPath, LoadAttrHasConfig, LoadPyModuleAttr]);
          var agnLoaders := Register(scene.agnLoaders, [LoadPyModuleAttr]);
          RegisteredLoaders(scene.objLoaders, scene.agnLoaders);
          Ok(variant.(scene := scene.(objLoaders := objLoaders, agnLoaders := agnLoaders)))
  }

  /** A variant whose scene lacks any one of objects, workspaces or agents
      is never admitted. */
  lemma IncompleteSceneRejected(
    name: string,
    expand: string -> Option<Uri>,
    loadVariant: Uri -> Option<ScenarioVariant>,
    uri: Uri,
    variant: ScenarioVariant)
    requires expand(VariantName(name)) == Some(uri)
    requires loadVariant(uri) == Some(variant)
    requires !SceneUsable(variant.scene)
    ensures AdmitScenario(name, expand, loadVariant) == Err(CheckScene(variant.scene).error)
  {
  }
}
