/** The workflow's state machine: its states and events, the initial and end
    states, the transition table, what can be reached from the initial state,
    and the action that copies a transition's target into the stored process
    record. */
module StateMachineConfig {
  import opened Common

  datatype State =
    | ProcessSelection
    | StepOne
    | StepTwo
    | StepThree
    | Submission
    | Completed
    | Error

  datatype Event =
    | ProcessSelected
    | StepOneSubmit
    | StepTwoSubmit
    | StepThreeSubmit
    | FinalSubmit
    | Back
    | Reset

  /** The enum constant's `name()`. */
  function StateName(s: State): string {
    match s
    case ProcessSelection => "PROCESS_SELECTION"
    case StepOne => "STEP_ONE"
    case StepTwo => "STEP_TWO"
    case StepThree => "STEP_THREE"
    case Submission => "SUBMISSION"
    case Completed => "COMPLETED"
    case Error => "ERROR"
  }

  function EventName(e: Event): string {
    match e
    case ProcessSelected => "PROCESS_SELECTED"
    case StepOneSubmit => "STEP_ONE_SUBMIT"
    case StepTwoSubmit => "STEP_TWO_SUBMIT"
    case StepThreeSubmit => "STEP_THREE_SUBMIT"
    case FinalSubmit => "FINAL_SUBMIT"
    case Back => "BACK"
    case Reset => "RESET"
  }

  /** The event an event name stands for (the enum's `valueOf`), or None for
      a string that names no event. */
  function ParseEvent(name: string): (r: Option<Event>)
    ensures forall e :: r == Some(e) <==> name == EventName(e)
  {
    match name
    case "PROCESS_SELECTED" => Some(ProcessSelected)
    case "STEP_ONE_SUBMIT" => Some(StepOneSubmit)
    case "STEP_TWO_SUBMIT" => Some(StepTwoSubmit)
    case "STEP_THREE_SUBMIT" => Some(StepThreeSubmit)
    case "FINAL_SUBMIT" => Some(FinalSubmit)
    case "BACK" => Some(Back)
    case "RESET" => Some(Reset)
    case _ => None
  }

  // ---------------------------------------------------------------------------
  // States configuration
  // ---------------------------------------------------------------------------

  const Initial: State := ProcessSelection

  predicate IsEnd(s: State) {
    s == Completed || s == Error
  }

  // ---------------------------------------------------------------------------
  // Transitions configuration
  // ---------------------------------------------------------------------------

  datatype TransitionRow = TransitionRow(source: State, event: Event, target: State)

  /** The external transitions, in the order they are declared. */
  const Table: seq<TransitionRow> := [
    TransitionRow(ProcessSelection, ProcessSelected, StepOne),
    TransitionRow(StepOne, StepOneSubmit, StepTwo),
    TransitionRow(StepTwo, StepTwoSubmit, StepThree),
    TransitionRow(StepThree, StepThreeSubmit, Submission),
    TransitionRow(Submission, FinalSubmit, Completed),
    // back navigation
    TransitionRow(StepTwo, Back, StepOne),
    TransitionRow(StepThree, Back, StepTwo),
    TransitionRow(Submission, Back, StepThree),
    // reset to the beginning
    TransitionRow(StepOne, Reset, ProcessSelection),
    TransitionRow(StepTwo, Reset, ProcessSelection),
    TransitionRow(StepThree, Reset, ProcessSelection),
    TransitionRow(Submission, Reset, ProcessSelection)
  ]

  /** The target of the transition that `e` triggers in `s`, or None when the
      table has no such transition. */
  function Transition(s: State, e: Event): (r: Option<State>)
    ensures forall t :: r == Some(t) <==> TransitionRow(s, e, t) in Table
  {
    match (s, e)
    case (ProcessSelection, ProcessSelected) => Some(StepOne)
    case (StepOne, StepOneSubmit) => Some(StepTwo)
    case (StepTwo, StepTwoSubmit) => Some(StepThree)
    case (StepThree, StepThreeSubmit) => Some(Submission)
    case (Submission, FinalSubmit) => Some(Completed)
    case (StepTwo, Back) => Some(StepOne)
    case (StepThree, Back) => Some(StepTwo)
    case (Submission, Back) => Some(StepThree)
    case (StepOne, Reset) => Some(ProcessSelection)
    case (StepTwo, Reset) => Some(ProcessSelection)
    case (StepThree, Reset) => Some(ProcessSelection)
    case (Submission, Reset) => Some(ProcessSelection)
    case _ => None
  }

  /** No (source, event) pair is declared twice, so a lookup finds at most
      one target. */
  lemma TableIsDeterministic()
    ensures forall i, j :: 0 <= i < j < |Table| ==>
      Table[i].source != Table[j].source || Table[i].event != Table[j].event
  {
  }

  /** The states of the forward chain, in order, and the events that advance
      along it. */
  const Chain: seq<State> := [ProcessSelection, StepOne, StepTwo, StepThree, Submission, Completed]
  const Advance: seq<Event> := [ProcessSelected, StepOneSubmit, StepTwoSubmit, StepThreeSubmit, FinalSubmit]

  /** Each advancing event moves exactly one position forward along the
      chain, and only from its own position. */
  lemma ForwardChain(s: State, k: nat, t: State)
    requires k < |Advance|
    ensures Transition(s, Advance[k]) == Some(t) <==> s == Chain[k] && t == Chain[k + 1]
  {
  }

  /** BACK moves exactly one position back along the chain, from STEP_TWO,
      STEP_THREE and SUBMISSION only. */
  lemma BackIsOneStep(s: State, t: State)
    ensures Transition(s, Back) == Some(t) <==>
      exists k :: 2 <= k <= 4 && s == Chain[k] && t == Chain[k - 1]
  {
    if Transition(s, Back) == Some(t) {
      var k := if s == StepTwo then 2 else if s == StepThree then 3 else 4;
      assert s == Chain[k] && t == Chain[k - 1];
    }
  }

  /** RESET leads to PROCESS_SELECTION from the four step states and is
      refused everywhere else. */
  lemma ResetReturnsToSelection(s: State, t: State)
    ensures Transition(s, Reset) == Some(t) <==>
      s in {StepOne, StepTwo, StepThree, Submission} && t == ProcessSelection
  {
  }

  /** The end states have no outgoing transition, no transition enters ERROR,
      and COMPLETED is entered only by FINAL_SUBMIT from SUBMISSION. */
  lemma EndStates(s: State, e: Event)
    ensures IsEnd(s) ==> Transition(s, e) == None
    ensures Transition(s, e) != Some(Error)
    ensures Transition(s, e) == Some(Completed) <==> s == Submission && e == FinalSubmit
  {
  }

  // ---------------------------------------------------------------------------
  // Runs and reachability
  // ---------------------------------------------------------------------------

  /** The state after feeding `events` to the machine in state `s`; None as
      soon as one event has no transition. */
  function Run(s: State, events: seq<Event>): Option<State>
    decreases |events|
  {
    if events == [] then Some(s)
    else match Transition(s, events[0])
      case None => None
      case Some(t) => Run(t, events[1..])
  }

  ghost predicate Reachable(t: State) {
    exists events :: Run(Initial, events) == Some(t)
  }

  lemma {:induction false} RunSnoc(s: State, events: seq<Event>, e: Event)
    ensures Run(s, events + [e]) ==
      match Run(s, events)
      case None => None
      case Some(u) => Transition(u, e)
    decreases |events|
  {
    if events == [] {
      assert events + [e] == [e];
    } else {
      assert (events + [e])[1..] == events[1..] + [e];
      match Transition(s, events[0])
      case None =>
      case Some(t) => RunSnoc(t, events[1..], e);
    }
  }

  /** A run that does not start in ERROR never ends in it. */
  lemma {:induction false} RunAvoidsError(s: State, events: seq<Event>)
    requires s != Error
    ensures Run(s, events) != Some(Error)
    decreases |events|
  {
    if events != [] {
      match Transition(s, events[0])
      case None =>
      case Some(t) =>
        EndStates(s, events[0]);
        RunAvoidsError(t, events[1..]);
    }
  }

  /** Reachability is preserved by every transition. */
  lemma ReachableStep(s: State, e: Event, t: State)
    requires Reachable(s) && Transition(s, e) == Some(t)
    ensures Reachable(t)
  {
    var events :| Run(Initial, events) == Some(s);
    RunSnoc(Initial, events, e);
    assert Run(Initial, events + [e]) == Some(t);
  }

  /** Every state but ERROR is reachable from the initial state; ERROR is not. */
  lemma ReachableStates(t: State)
    ensures Reachable(t) <==> t != Error
  {
    if t == Error {
      forall events ensures Run(Initial, events) != Some(Error) {
        RunAvoidsError(Initial, events);
      }
    } else {
      var n := if t == ProcessSelection then 0 else if t == StepOne then 1 else if t == StepTwo then 2
               else if t == StepThree then 3 else if t == Submission then 4 else 5;
      RunAlongChain(n);
      assert Chain[n] == t;
    }
  }

  lemma {:induction false} RunAlongChain(n: nat)
    requires n < |Chain|
    ensures Run(Initial, Advance[..n]) == Some(Chain[n])
  {
    if n > 0 {
      RunAlongChain(n - 1);
      assert Advance[..n] == Advance[..n - 1] + [Advance[n - 1]];
      RunSnoc(Initial, Advance[..n - 1], Advance[n - 1]);
    }
  }

  /** Once in an end state, no further event is accepted. */
  lemma EndStatesAbsorb(s: State, events: seq<Event>)
    requires IsEnd(s) && events != []
    ensures Run(s, events) == None
  {
    EndStates(s, events[0]);
  }

  // ---------------------------------------------------------------------------
  // saveProcessAction
  // ---------------------------------------------------------------------------

  /** The stored process record; timestamps are not modelled. */
  datatype ProcessEntity = ProcessEntity(id: int, processType: string, currentState: string)

  /** A value in the state machine's extended-state variables. Only a Long
      can be cast to the process id. */
  datatype Variable = LongValue(n: int) | StringValue(s: string) | OtherValue

  datatype ActionError = ClassCastError

  /** What the action does to the stored processes when a transition to
      `target` fires with the given extended-state variables. */
  function SaveAction(processes: map<int, ProcessEntity>, variables: map<string, Variable>, target: State)
    : (r: Result<map<int, ProcessEntity>, ActionError>)
    ensures r.Err? <==> "processId" in variables && !variables["processId"].LongValue?
    ensures r.Ok? ==> r.value.Keys == processes.Keys
    ensures r.Ok? ==> forall id :: id in processes ==>
      r.value[id] == if "processId" in variables && variables["processId"] == LongValue(id)
                     then processes[id].(currentState := StateName(target))
                     else processes[id]
  {
    if "processId" !in variables then Ok(processes)
    else match variables["processId"]
      case LongValue(id) =>
        if id in processes then Ok(processes[id := processes[id].(currentState := StateName(target))])
        else Ok(processes)
      case _ => Err(ClassCastError)
  }

  /** The process repository the action writes to. */
  class ProcessRepository {
    var processes: map<int, ProcessEntity>

    constructor (initial: map<int, ProcessEntity>)
      ensures processes == initial
    {
      processes := initial;
    }

    /** The action run on a transition: looks the process up by the
        `processId` variable, overwrites its current state with the target's
        name and saves it back. */
    method SaveProcessAction(variables: map<string, Variable>, target: State) returns (r: Result<(), ActionError>)
      modifies this
      ensures r.Err? <==> SaveAction(old(processes), variables, target).Err?
      ensures processes == if r.Ok? then SaveAction(old(processes), variables, target).value else old(processes)
    {
      r := Ok(());
      if "processId" in variables {
        var v := variables["processId"];
        if !v.LongValue? {
          r := Err(ClassCastError);
          return;
        }
        var processId := v.n;
        if processId in processes {
          var process := processes[processId];
          process := process.(currentState := StateName(target));
          processes := processes[processId := process];
        }
      }
    }
  }
}
