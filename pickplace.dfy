/** `PickplaceBehaviourMockup`: a behaviour that, on every step, reports that
    the agents pick the objects from the pick workspaces and place them at
    the place workspaces, and counts down from `max_count`.

    `Machine` is the abstract state (counter, ceiling, participant ids and
    the reports emitted so far) with the protocol as functions on it; the
    class `PickplaceBehaviour` holds that state in fields and is proved to
    follow the functions. */
module Pickplace {
  import opened Terms

  /** `max_count` when the constructor is given none. */
  const DefaultMaxCount: int := 5

  datatype Participants = Participants(
    agents: seq<Uri>,
    objects: seq<Uri>,
    pickWorkspaces: seq<Uri>,
    placeWorkspaces: seq<Uri>)

  /** The two lines a step reports. Each participant list is shown as
      alternatives ("a or b"); rendering the URIs is not modelled. */
  datatype Report =
    | Picks(agents: seq<Uri>, objects: seq<Uri>, from: seq<Uri>)
    | Places(agents: seq<Uri>, objects: seq<Uri>, at: seq<Uri>)

  /** The reports of one step: pick, then place. */
  function Cycle(ids: Participants): seq<Report>
  {
    [Picks(ids.agents, ids.objects, ids.pickWorkspaces),
     Places(ids.agents, ids.objects, ids.placeWorkspaces)]
  }

  /** The reports of `n` steps. */
  function Cycles(ids: Participants, n: nat): seq<Report>
  {
    if n == 0 then [] else Cycle(ids) + Cycles(ids, n - 1)
  }

  datatype Machine = Machine(counter: int, maxCount: int, ids: Participants, trace: seq<Report>)
  {
    predicate IsFinished() { counter <= 0 }

    /** The counter never rises above the ceiling. */
    predicate WithinCeiling() { counter <= maxCount }

    function Reset(): Machine { this.(counter := maxCount) }

    /** One step; it has no guard, so stepping a finished machine drives the
        counter below zero. */
    function Step(): Machine
    {
      this.(counter := counter - 1, trace := trace + Cycle(ids))
    }

    function Steps(n: nat): Machine
      decreases n
    {
      if n == 0 then this else Step().Steps(n - 1)
    }

    /** The driver loop: step while not finished. */
    function Run(): Machine
      decreases if counter > 0 then counter else 0
    {
      if IsFinished() then this else Step().Run()
    }
  }

  /** The state right after construction. */
  function Initial(maxCountArg: Option<int>, ids: Participants): Machine
  {
    var m := if maxCountArg.Some? then maxCountArg.value else DefaultMaxCount;
    Machine(m, m, ids, [])
  }

  /* ---------- properties of the protocol ---------- */

  /** Construction leaves the counter at the ceiling, which is 5 unless
      given. */
  lemma InitialState(maxCountArg: Option<int>, ids: Participants)
    ensures Initial(maxCountArg, ids).counter == Initial(maxCountArg, ids).maxCount
    ensures maxCountArg.None? ==> Initial(maxCountArg, ids).maxCount == 5
    ensures maxCountArg.Some? ==> Initial(maxCountArg, ids).maxCount == maxCountArg.value
    ensures Initial(maxCountArg, ids).ids == ids && Initial(maxCountArg, ids).trace == []
  {
  }

  /** A step lowers the counter by exactly one, appends a pick report and
      then a place report naming the participants, and changes nothing
      else; it does so whether or not the machine is finished. */
  lemma StepEffect(s: Machine)
    ensures s.Step().counter == s.counter - 1
    ensures |s.Step().trace| == |s.trace| + 2 && s.Step().trace[..|s.trace|] == s.trace
    ensures s.Step().trace[|s.trace|] == Picks(s.ids.agents, s.ids.objects, s.ids.pickWorkspaces)
    ensures s.Step().trace[|s.trace| + 1] == Places(s.ids.agents, s.ids.objects, s.ids.placeWorkspaces)
    ensures s.Step().ids == s.ids && s.Step().maxCount == s.maxCount
    ensures s.IsFinished() ==> s.Step().IsFinished() && s.Step().counter < 0
  {
  }

  /** Reset restores the counter from any state, touches nothing else, and
      is idempotent; after a reset a positive ceiling means not finished. */
  lemma ResetEffect(s: Machine)
    ensures s.Reset().counter == s.maxCount
    ensures s.Reset().maxCount == s.maxCount && s.Reset().ids == s.ids && s.Reset().trace == s.trace
    ensures s.Reset().Reset() == s.Reset()
    ensures s.Reset().IsFinished() <==> s.maxCount <= 0
  {
  }

  /** `n` steps take `n` off the counter and emit `n` pick/place cycles. */
  lemma {:induction false} StepsEffect(s: Machine, n: nat)
    ensures s.Steps(n) == s.(counter := s.counter - n, trace := s.trace + Cycles(s.ids, n))
    decreases n
  {
    if n > 0 {
      StepsEffect(s.Step(), n - 1);
      assert s.trace + Cycle(s.ids) + Cycles(s.ids, n - 1) == s.trace + Cycles(s.ids, n);
    }
  }

  /** The driver loop performs exactly `max(counter, 0)` steps. */
  lemma {:induction false} RunIsSteps(s: Machine)
    ensures s.Run() == s.Steps(if s.counter > 0 then s.counter else 0)
    decreases if s.counter > 0 then s.counter else 0
  {
    if !s.IsFinished() {
      RunIsSteps(s.Step());
    }
  }

  /** The reports of `n` steps: 2n of them, pick at even and place at odd
      positions, all naming the same participants. */
  lemma {:induction false} CyclesAlternate(ids: Participants, n: nat)
    ensures |Cycles(ids, n)| == 2 * n
    ensures forall k :: 0 <= k < 2 * n ==>
              Cycles(ids, n)[k] == if k % 2 == 0
                                  then Picks(ids.agents, ids.objects, ids.pickWorkspaces)
                                  else Places(ids.agents, ids.objects, ids.placeWorkspaces)
  {
    if n > 0 {
      CyclesAlternate(ids, n - 1);
      var rest := Cycles(ids, n - 1);
      forall k | 2 <= k < 2 * n ensures Cycles(ids, n)[k] == rest[k - 2] {
      }
    }
  }

  /** `reset` followed by the driver loop: with `max_count = m > 0` it
      performs exactly m steps, emits 2m reports alternating pick and place,
      and ends finished with the counter at 0; with m <= 0 it performs no
      step and the counter stays at m. The ceiling and the ids are kept. */
  lemma Driven(s: Machine)
    ensures var r := s.Reset().Run();
            && r.IsFinished()
            && r.counter == (if s.maxCount > 0 then 0 else s.maxCount)
            && r.trace == s.trace + Cycles(s.ids, if s.maxCount > 0 then s.maxCount else 0)
            && r.maxCount == s.maxCount && r.ids == s.ids
  {
    RunIsSteps(s.Reset());
    StepsEffect(s.Reset(), if s.maxCount > 0 then s.maxCount else 0);
  }

  /** After a reset with a positive ceiling, the machine is finished after
      exactly `max_count` steps and not before; a further reset makes it
      unfinished again. */
  lemma FinishedExactlyAtCeiling(s: Machine, n: nat)
    requires s.maxCount > 0
    ensures s.Reset().Steps(n).IsFinished() <==> n >= s.maxCount
    ensures !s.Reset().Steps(n).Reset().IsFinished()
  {
    StepsEffect(s.Reset(), n);
  }

  /** One agent, one object, one pick and one place workspace with
      `max_count = 2`: the driver loop reports pick, place, pick, place and
      leaves the counter at 0. */
  lemma TwoCycleScenario(agent: Uri, obj: Uri, pickWs: Uri, placeWs: Uri)
    ensures var r := Initial(Some(2), Participants([agent], [obj], [pickWs], [placeWs])).Reset().Run();
            && r.counter == 0
            && r.trace == [Picks([agent], [obj], [pickWs]), Places([agent], [obj], [placeWs]),
                           Picks([agent], [obj], [pickWs]), Places([agent], [obj], [placeWs])]
  {
    var ids := Participants([agent], [obj], [pickWs], [placeWs]);
    Driven(Initial(Some(2), ids));
    CyclesAlternate(ids, 2);
  }

  /** The counter stays at or below the ceiling: construction starts at it,
      reset returns to it from any state, and steps and the driver loop only
      lower it. */
  lemma {:induction false} CeilingInvariant(s: Machine, n: nat)
    ensures s.Reset().WithinCeiling()
    ensures s.WithinCeiling() ==> s.Step().WithinCeiling()
    ensures s.WithinCeiling() ==> s.Steps(n).WithinCeiling()
    ensures s.WithinCeiling() ==> s.Run().WithinCeiling()
  {
    StepsEffect(s, n);
    RunIsSteps(s);
    StepsEffect(s, if s.counter > 0 then s.counter else 0);
  }

  /** Each of the four parsed parameter lists must consist of URIs. */
  predicate AllUris(terms: seq<Term>)
  {
    forall i :: 0 <= i < |terms| ==> terms[i].UriRef?
  }

  /** The URIs of a list of URI terms, in order. */
  function Uris(terms: seq<Term>): (r: seq<Uri>)
    requires AllUris(terms)
    ensures |r| == |terms|
    ensures forall i :: 0 <= i < |terms| ==> r[i] == terms[i].uri
  {
    if terms == [] then [] else [terms[0].uri] + Uris(terms[1..])
  }

  /** One of the four `append` loops of the constructor: it keeps every
      parsed element, in order, and fails on the first that is not a URI. */
  method CollectUris(role: Role, terms: seq<Term>) returns (r: Result<seq<Uri>, Failure>)
    ensures r.Ok? <==> AllUris(terms)
    ensures r.Ok? ==> r.value == Uris(terms)
    ensures r.Err? ==> exists i :: 0 <= i < |terms| && AllUris(terms[..i]) && !terms[i].UriRef?
                                   && r.error == UnexpectedTerm(role, terms[i])
  {
    var ids: seq<Uri> := [];
    var i := 0;
    while i < |terms|
      invariant 0 <= i <= |terms|
      invariant AllUris(terms[..i])
      invariant ids == Uris(terms[..i])
    {
      if !terms[i].UriRef? {
        return Err(UnexpectedTerm(role, terms[i]));
      }
      assert terms[..i + 1] == terms[..i] + [terms[i]];
      ids := ids + [terms[i].uri];
      i := i + 1;
    }
    assert terms[..i] == terms;
    return Ok(ids);
  }

  class PickplaceBehaviour {
    var counter: int
    var maxCount: int
    var agentIds: seq<Uri>
    var objectIds: seq<Uri>
    var pickWorkspaceIds: seq<Uri>
    var placeWorkspaceIds: seq<Uri>
    /** The reports printed so far. */
    ghost var trace: seq<Report>

    /** The class invariant: the counter is at most `max_count`. */
    ghost predicate Valid()
      reads this
    {
      State().WithinCeiling()
    }

    ghost function State(): Machine
      reads this
    {
      Machine(counter, maxCount,
              Participants(agentIds, objectIds, pickWorkspaceIds, placeWorkspaceIds),
              trace)
    }

    /** The constructor once its four parameter lists are parsed. */
    constructor (maxCountArg: Option<int>, ids: Participants)
      ensures State() == Initial(maxCountArg, ids)
      ensures Valid()
    {
      maxCount := if maxCountArg.Some? then maxCountArg.value else DefaultMaxCount;
      counter := if maxCountArg.Some? then maxCountArg.value else DefaultMaxCount;
      agentIds := ids.agents;
      objectIds := ids.objects;
      pickWorkspaceIds := ids.pickWorkspaces;
      placeWorkspaceIds := ids.placeWorkspaces;
      trace := [];
    }

    /** The constructor: `maxCountArg` is the `max_count` keyword, the four
        term lists are the parsed agent, object, pick- and place-workspace
        parameters. It fails on the first list, in that order, holding an
        element that is not a URI. */
    static method Load(
      maxCountArg: Option<int>,
      agentTerms: seq<Term>, objectTerms: seq<Term>,
      pickTerms: seq<Term>, placeTerms: seq<Term>) returns (r: Result<PickplaceBehaviour, Failure>)
      ensures r.Ok? <==> AllUris(agentTerms) && AllUris(objectTerms) && AllUris(pickTerms) && AllUris(placeTerms)
      ensures r.Ok? ==> fresh(r.value) && r.value.Valid()
      ensures r.Ok? ==> r.value.State() == Initial(maxCountArg,
                          Participants(Uris(agentTerms), Uris(objectTerms), Uris(pickTerms), Uris(placeTerms)))
      ensures r.Err? ==> r.error.UnexpectedTerm?
      ensures r.Err? && !AllUris(agentTerms) ==> r.error.role == Agent
      ensures r.Err? && AllUris(agentTerms) && !AllUris(objectTerms) ==> r.error.role == Object
      ensures r.Err? && AllUris(agentTerms) && AllUris(objectTerms) && !AllUris(pickTerms) ==>
                r.error.role == PickWorkspace
      ensures r.Err? && AllUris(agentTerms) && AllUris(objectTerms) && AllUris(pickTerms) ==>
                r.error.role == PlaceWorkspace
    {
      var agents := CollectUris(Agent, agentTerms);
      if agents.Err? { return Err(agents.error); }
      var objects := CollectUris(Object, objectTerms);
      if objects.Err? { return Err(objects.error); }
      var picks := CollectUris(PickWorkspace, pickTerms);
      if picks.Err? { return Err(picks.error); }
      var places := CollectUris(PlaceWorkspace, placeTerms);
      if places.Err? { return Err(places.error); }
      var b := new PickplaceBehaviour(maxCountArg,
                 Participants(agents.value, objects.value, picks.value, places.value));
      return Ok(b);
    }

    /** `is_finished`: a query that changes nothing. */
    method IsFinished() returns (finished: bool)
      ensures finished <==> State().IsFinished()
    {
      finished := counter <= 0;
    }

    method Reset()
      requires Valid()
      modifies this
      ensures Valid()
      ensures State() == old(State()).Reset()
    {
      counter := maxCount;
    }

    method Step()
      requires Valid()
      modifies this
      ensures Valid()
      ensures State() == old(State()).Step()
    {
      trace := trace + Cycle(State().ids);
      counter := counter - 1;
    }
  }
}
