/** Values shared by the whole model: identifiers, parsed terms, the
    failure-carrying wrappers and the assertion failures that the hooks of
    `mockup.py` raise. */
module Terms {

  /** A URI, kept as its text. */
  type Uri = string

  /** An element produced by parsing a parameter string against a namespace
      mapping. Only `UriRef` elements are acceptable participant ids. */
  datatype Term = UriRef(uri: Uri) | Literal(lexical: string) | BlankNode(nodeId: string)

  datatype Option<+T> = None | Some(value: T)

  datatype Result<+T, +E> = Ok(value: T) | Err(error: E)

  /** Pass, or the first failed assertion. */
  datatype Outcome<+E> = Pass | Fail(error: E)

  /** The participant role a URI list or an entity stands for; it is the word
      each assertion message names. */
  datatype Role = Agent | Object | PickWorkspace | PlaceWorkspace

  /** The assertion failures raised by the hooks, each naming what the
      message names. */
  datatype Failure =
    | UnparsableScenarioName(compactName: string)
    | VariantNotLoaded(variant: Uri)
    | SceneWithoutObject(scene: Uri)
    | SceneWithoutWorkspace(scene: Uri)
    | SceneWithoutAgent(scene: Uri)
    | MissingKey(key: Uri, owner: Uri)
    | NoModelOfType(modelType: Uri, owner: Uri)
    | MissingModuleName(model: Uri, owner: Uri, role: Role)
    | MissingAttrName(model: Uri, owner: Uri, role: Role)
    | MissingPath(model: Uri, owner: Uri)
    | ObjectNotLoaded(obj: Term)
    | UnrecognizedWorkspace(workspace: Term)
    | UnparsableEvent(event: string)
    | UnexpectedTerm(role: Role, term: Term)

  /** The first failure of `check` over `xs`, taken in order: the shape of a
      `for` loop whose body asserts. */
  function FirstFailure<T>(xs: seq<T>, check: T -> Outcome<Failure>): Outcome<Failure>
  {
    if xs == [] then Pass
    else if check(xs[0]).Fail? then check(xs[0])
    else FirstFailure(xs[1..], check)
  }

  /** The loop passes exactly when every element passes, and when it fails,
      it reports the failure of the first failing element. */
  lemma {:induction false} FirstFailureMeaning<T>(xs: seq<T>, check: T -> Outcome<Failure>)
    ensures FirstFailure(xs, check).Pass? <==> forall i :: 0 <= i < |xs| ==> check(xs[i]).Pass?
    ensures FirstFailure(xs, check).Fail? ==>
              exists i :: 0 <= i < |xs| && check(xs[i]) == FirstFailure(xs, check)
                && forall j :: 0 <= j < i ==> check(xs[j]).Pass?
  {
    if xs != [] && check(xs[0]).Pass? {
      FirstFailureMeaning(xs[1..], check);
      if FirstFailure(xs, check).Fail? {
        var i :| 0 <= i < |xs[1..]| && check(xs[1..][i]) == FirstFailure(xs[1..], check)
                 && forall j :: 0 <= j < i ==> check(xs[1..][j]).Pass?;
        assert check(xs[i + 1]) == FirstFailure(xs, check);
        forall j | 0 <= j < i + 1 ensures check(xs[j]).Pass? {
          if j > 0 { assert xs[j] == xs[1..][j - 1]; }
        }
      }
      forall k | 0 <= k < |xs| && FirstFailure(xs, check).Pass? ensures check(xs[k]).Pass? {
        if k > 0 { assert xs[k] == xs[1..][k - 1]; }
      }
    }
  }

  /** One pass of a loop body: the first failure from position `i` on is
      the element's own failure or the first failure after it. */
  lemma FirstFailureFrom<T>(xs: seq<T>, i: nat, check: T -> Outcome<Failure>)
    requires i < |xs|
    ensures FirstFailure(xs[i..], check) ==
              if check(xs[i]).Fail? then check(xs[i]) else FirstFailure(xs[i + 1..], check)
  {
  }
}
