/** The process service: starting a workflow, submitting a step, showing the
    current step's form and summarising what has been submitted. The process
    engine it drives is abstracted as a map from process id to the instance's
    type and state, and the engine moves an instance with the transition table
    of StateMachineConfig. */
module ProcessService {
  import opened Common
  import opened StateMachineConfig
  import opened FormFieldConfig
  import opened FormDataRepository

  // ---------------------------------------------------------------------------
  // The process engine, as the service sees it
  // ---------------------------------------------------------------------------

  /** The definition key of the user task that is active in state `s`; the end
      states have no active task. */
  function TaskKey(s: State): (r: Option<string>)
    ensures r.None? <==> IsEnd(s)
  {
    match s
    case ProcessSelection => Some("selection")
    case StepOne => Some("step_one")
    case StepTwo => Some("step_two")
    case StepThree => Some("step_three")
    case Submission => Some("submission")
    case Completed => None
    case Error => None
  }

  /** Different states have different task keys, so the key identifies the state. */
  lemma TaskKeyInjective(s: State, t: State)
    requires TaskKey(s).Some? && TaskKey(s) == TaskKey(t)
    ensures s == t
  {
  }

  /** The state a completed task leads to, given the `uiEvent` variable: None
      when the string names no event or the event has no transition. */
  function Next(s: State, uiEvent: string): (r: Option<State>)
    ensures forall t :: r == Some(t) <==> exists e :: uiEvent == EventName(e) && Transition(s, e) == Some(t)
  {
    match ParseEvent(uiEvent)
    case None => None
    case Some(e) => Transition(s, e)
  }

  /** A running process instance: the definition it was started from, the
      `type` variable, and where it stands. */
  datatype Instance = Instance(definitionKey: string, processType: string, state: State)

  /** The engine's runtime and task services, reduced to the process instances
      keyed by business key. */
  class TaskEngine {
    var instances: map<ProcessId, Instance>

    /** Every instance stands in a state reachable from the initial state. */
    ghost predicate Valid()
      reads this
    {
      forall p :: p in instances ==> Reachable(instances[p].state)
    }

    constructor ()
      ensures Valid() && instances == map[]
    {
      instances := map[];
    }

    /** The definition key of the single active task of the process with
        business key `p`, or None when there is no such task. */
    function ActiveTask(p: ProcessId): (r: Option<string>)
      reads this
      ensures r.Some? <==> p in instances && !IsEnd(instances[p].state)
    {
      if p in instances then TaskKey(instances[p].state) else None
    }

    /** Starts an instance of `definitionKey` under business key `p`; the
        process is selected on start, so the instance stands at STEP_ONE. */
    method StartProcessInstanceByKey(definitionKey: string, p: ProcessId, processType: string)
      requires Valid() && p !in instances
      modifies this
      ensures Valid()
      ensures instances == old(instances)[p := Instance(definitionKey, processType, StepOne)]
    {
      var first := Transition(Initial, ProcessSelected);
      ReachableStates(StepOne);
      instances := instances[p := Instance(definitionKey, processType, first.value)];
    }

    /** Completes the active task of `p` with the `uiEvent` variable and moves
        the instance on; refused, with nothing changed, when no transition
        matches. */
    method Complete(p: ProcessId, uiEvent: string) returns (moved: bool)
      requires Valid() && ActiveTask(p).Some?
      modifies this
      ensures Valid()
      ensures moved == Next(old(instances[p].state), uiEvent).Some?
      ensures instances == if moved
        then old(instances)[p := old(instances[p]).(state := Next(old(instances[p].state), uiEvent).value)]
        else old(instances)
    {
      var instance := instances[p];
      var next := Next(instance.state, uiEvent);
      moved := next.Some?;
      if moved {
        var e := ParseEvent(uiEvent).value;
        ReachableStep(instance.state, e, next.value);
        instances := instances[p := instance.(state := next.value)];
      }
    }
  }

  /** No instance of a valid engine stands in ERROR: every state it reaches
      comes from the transition table, and no transition enters ERROR. */
  lemma InstancesAvoidError(instances: map<ProcessId, Instance>)
    requires forall p :: p in instances ==> Reachable(instances[p].state)
    ensures forall p :: p in instances ==> instances[p].state != Error
  {
    forall p | p in instances ensures instances[p].state != Error {
      ReachableStates(instances[p].state);
    }
  }

  // ---------------------------------------------------------------------------
  // Results of the service
  // ---------------------------------------------------------------------------

  datatype ServiceError =
    | ProcessNotFound(processId: ProcessId)
      /** The configuration of an unknown type is dereferenced: a NullPointerException. */
    | NullProcessConfig(processType: string)
    | ProcessTypeNotConfigured(processType: string)
    | StepNotConfigured(stepKey: string)
    | TransitionRejected(processId: ProcessId, uiEvent: string)

  /** The process as reported to the caller: its id and a state string. */
  datatype ProcessView = ProcessView(processId: ProcessId, state: string)

  /** The form of the current step, with the stored data of that step if any. */
  datatype FormDefinition = FormDefinition(
    processId: ProcessId,
    processType: string,
    currentState: string,
    step: string,
    title: Option<string>,
    fields: seq<FieldConfig>,
    actions: seq<ActionConfig>,
    data: Option<Payload>)

  /** The summary: `formData` maps a display key to a step's latest payload,
      in the order of its entries. */
  datatype Summary = Summary(processId: ProcessId, processType: string, formData: seq<(string, Payload)>)

  /** The state reported after a submission: the next task's key, or
      "COMPLETED" when the process has no task left. */
  function ReportedState(s: State): (r: string)
    ensures IsEnd(s) ==> r == "COMPLETED"
    ensures !IsEnd(s) ==> Some(r) == TaskKey(s)
  {
    match TaskKey(s)
    case Some(key) => key
    case None => "COMPLETED"
  }

  // ---------------------------------------------------------------------------
  // Summary keys and entries
  // ---------------------------------------------------------------------------

  /** `s.replace("_", " ")`. */
  function ReplaceUnderscores(s: string): (r: string)
    ensures |r| == |s|
    ensures forall i :: 0 <= i < |s| ==> r[i] == if s[i] == '_' then ' ' else s[i]
  {
    if s == [] then [] else [if s[0] == '_' then ' ' else s[0]] + ReplaceUnderscores(s[1..])
  }

  function UpperChar(c: char): char {
    if 'a' <= c <= 'z' then (c as int - 32) as char else c
  }

  /** `s.toUpperCase()`, on ASCII letters only. */
  function UpperAscii(s: string): (r: string)
    ensures |r| == |s|
    ensures forall i :: 0 <= i < |s| ==> r[i] == UpperChar(s[i])
  {
    if s == [] then [] else [UpperChar(s[0])] + UpperAscii(s[1..])
  }

  /** The key a step without a title gets in the summary: the step key with
      every underscore turned into a space and every letter upper-cased. */
  function FallbackTitle(step: string): (r: string)
    ensures |r| == |step|
    ensures forall i :: 0 <= i < |step| ==> r[i] == UpperChar(if step[i] == '_' then ' ' else step[i])
  {
    UpperAscii(ReplaceUnderscores(step))
  }

  /** The fallback keeps the length, has no underscore and no lower-case
      ASCII letter, and leaves every other character in place. */
  lemma FallbackTitleShape(step: string)
    ensures |FallbackTitle(step)| == |step|
    ensures forall i :: 0 <= i < |step| ==> FallbackTitle(step)[i] != '_' && !('a' <= FallbackTitle(step)[i] <= 'z')
    ensures forall i :: 0 <= i < |step| && step[i] != '_' && !('a' <= step[i] <= 'z') ==> FallbackTitle(step)[i] == step[i]
  {
  }

  /** The summary key of a step: its title, or the fallback built from its key. */
  function SummaryKey(step: string, config: StepConfig): (r: string)
    ensures config.title.Some? ==> r == config.title.value
    ensures config.title.None? ==>
      |r| == |step| && forall i :: 0 <= i < |step| ==> r[i] == UpperChar(if step[i] == '_' then ' ' else step[i])
  {
    match config.title
    case Some(title) => title
    case None => FallbackTitle(step)
  }

  /** The summary's form data as the service builds it: the steps in
      configuration order, each step with a latest row put under its summary
      key. A key already present keeps its place and takes the new value. */
  function SortedFormData(steps: seq<(string, StepConfig)>, latest: map<string, FormData>): (r: seq<(string, Payload)>)
    ensures DistinctKeys(r)
    ensures |r| <= |steps|
    decreases |steps|
  {
    if steps == [] then []
    else
      var prefix := SortedFormData(steps[..|steps| - 1], latest);
      var (step, config) := steps[|steps| - 1];
      if step in latest then
        PutDistinct(prefix, SummaryKey(step, config), latest[step].payload);
        Put(prefix, SummaryKey(step, config), latest[step].payload)
      else prefix
  }

  /** Extending the steps by one adds that step's entry, if it has a row. */
  lemma SortedFormDataSnoc(steps: seq<(string, StepConfig)>, i: nat, latest: map<string, FormData>)
    requires i < |steps|
    ensures SortedFormData(steps[..i + 1], latest) ==
      if steps[i].0 in latest then Put(SortedFormData(steps[..i], latest), SummaryKey(steps[i].0, steps[i].1), latest[steps[i].0].payload)
      else SortedFormData(steps[..i], latest)
  {
    assert steps[..i + 1][..i] == steps[..i];
  }

  /** Looking `k` up after the last step: that step's payload if it is
      submitted under `k`, otherwise what the earlier steps gave. */
  lemma SortedFormDataGet(steps: seq<(string, StepConfig)>, latest: map<string, FormData>, k: string)
    requires steps != []
    ensures var last := steps[|steps| - 1];
      Get(SortedFormData(steps, latest), k) ==
        if last.0 in latest && SummaryKey(last.0, last.1) == k then Some(latest[last.0].payload)
        else Get(SortedFormData(steps[..|steps| - 1], latest), k)
  {
    var last := steps[|steps| - 1];
    if last.0 in latest {
      PutGet(SortedFormData(steps[..|steps| - 1], latest), SummaryKey(last.0, last.1), latest[last.0].payload, k);
    }
  }

  /** Step `i` is submitted, has summary key `k`, and no later submitted
      step has that key. */
  predicate LastWithKey(steps: seq<(string, StepConfig)>, latest: map<string, FormData>, k: string, i: int) {
    && 0 <= i < |steps|
    && steps[i].0 in latest
    && SummaryKey(steps[i].0, steps[i].1) == k
    && forall j :: i < j < |steps| && steps[j].0 in latest ==> SummaryKey(steps[j].0, steps[j].1) != k
  }

  /** The last submitted step with key `k` is the final step if that one is
      submitted under `k`, and otherwise the last such step before it. */
  lemma LastWithKeyStep(steps: seq<(string, StepConfig)>, latest: map<string, FormData>, k: string, v: Payload)
    requires steps != []
    ensures var n := |steps| - 1;
      (exists i :: LastWithKey(steps, latest, k, i) && latest[steps[i].0].payload == v) <==>
        if steps[n].0 in latest && SummaryKey(steps[n].0, steps[n].1) == k then latest[steps[n].0].payload == v
        else exists i :: LastWithKey(steps[..n], latest, k, i) && latest[steps[..n][i].0].payload == v
  {
    var n := |steps| - 1;
    var before := steps[..n];
    if steps[n].0 in latest && SummaryKey(steps[n].0, steps[n].1) == k {
      assert LastWithKey(steps, latest, k, n);
      if i :| LastWithKey(steps, latest, k, i) && latest[steps[i].0].payload == v {
        assert !(i < n);
      }
    } else {
      if i :| LastWithKey(before, latest, k, i) && latest[before[i].0].payload == v {
        assert before[i] == steps[i];
        assert LastWithKey(steps, latest, k, i);
      }
      if i :| LastWithKey(steps, latest, k, i) && latest[steps[i].0].payload == v {
        assert before[i] == steps[i];
        assert LastWithKey(before, latest, k, i);
      }
    }
  }

  /** The value under a summary key is the latest payload of the last
      submitted step, in configuration order, with that key: a later step
      with the same title overwrites an earlier one. */
  lemma {:induction false} SortedFormDataValue(steps: seq<(string, StepConfig)>, latest: map<string, FormData>, k: string, v: Payload)
    ensures Get(SortedFormData(steps, latest), k) == Some(v) <==>
      exists i :: LastWithKey(steps, latest, k, i) && latest[steps[i].0].payload == v
    decreases |steps|
  {
    if steps != [] {
      SortedFormDataValue(steps[..|steps| - 1], latest, k, v);
      SortedFormDataGet(steps, latest, k);
      LastWithKeyStep(steps, latest, k, v);
    }
  }

  /** The entry a submitted step contributes to the summary. */
  function Entry(step: (string, StepConfig), latest: map<string, FormData>): (string, Payload)
    requires step.0 in latest
  {
    (SummaryKey(step.0, step.1), latest[step.0].payload)
  }

  /** The sparse projection: one entry per step that has a latest row, in
      configuration order, and nothing for the other steps. */
  function Projection(steps: seq<(string, StepConfig)>, latest: map<string, FormData>): (r: seq<(string, Payload)>)
    ensures forall p :: p in r <==> exists i :: 0 <= i < |steps| && steps[i].0 in latest && Entry(steps[i], latest) == p
    decreases |steps|
  {
    if steps == [] then []
    else
      var last := steps[|steps| - 1];
      var before := steps[..|steps| - 1];
      var prefix := Projection(before, latest);
      assert forall i :: 0 <= i < |before| ==> before[i] == steps[i];
      if last.0 in latest then prefix + [Entry(last, latest)] else prefix
  }

  /** Two submitted steps appear in the projection in configuration order. */
  lemma {:induction false} ProjectionKeepsOrder(steps: seq<(string, StepConfig)>, latest: map<string, FormData>, i: nat, j: nat)
    requires i < j < |steps| && steps[i].0 in latest && steps[j].0 in latest
    ensures exists a, b ::
      (0 <= a < b < |Projection(steps, latest)|
       && Projection(steps, latest)[a] == Entry(steps[i], latest)
       && Projection(steps, latest)[b] == Entry(steps[j], latest))
    decreases |steps|
  {
    var before := steps[..|steps| - 1];
    var prefix := Projection(before, latest);
    if j < |steps| - 1 {
      assert before[i] == steps[i] && before[j] == steps[j];
      ProjectionKeepsOrder(before, latest, i, j);
      var a, b :| 0 <= a < b < |prefix| && prefix[a] == Entry(steps[i], latest) && prefix[b] == Entry(steps[j], latest);
      assert Projection(steps, latest)[a] == prefix[a] && Projection(steps, latest)[b] == prefix[b];
    } else {
      assert before[i] == steps[i];
      assert Entry(steps[i], latest) in prefix;
      var a :| 0 <= a < |prefix| && prefix[a] == Entry(steps[i], latest);
      assert Projection(steps, latest)[a] == prefix[a];
      assert Projection(steps, latest)[|prefix|] == Entry(steps[j], latest);
    }
  }

  /** No two submitted steps share a summary key. */
  predicate SummaryKeysDistinct(steps: seq<(string, StepConfig)>, latest: map<string, FormData>) {
    forall i, j :: 0 <= i < j < |steps| && steps[i].0 in latest && steps[j].0 in latest ==>
      SummaryKey(steps[i].0, steps[i].1) != SummaryKey(steps[j].0, steps[j].1)
  }

  /** Unless two submitted steps share a summary key, the summary is exactly
      the sparse projection in configuration order. */
  lemma {:induction false} SortedFormDataIsProjection(steps: seq<(string, StepConfig)>, latest: map<string, FormData>)
    requires SummaryKeysDistinct(steps, latest)
    ensures SortedFormData(steps, latest) == Projection(steps, latest)
    decreases |steps|
  {
    if steps != [] {
      var last := steps[|steps| - 1];
      var before := steps[..|steps| - 1];
      assert SummaryKeysDistinct(before, latest) by {
        forall i, j | 0 <= i < j < |before| && before[i].0 in latest && before[j].0 in latest
          ensures SummaryKey(before[i].0, before[i].1) != SummaryKey(before[j].0, before[j].1)
        {
          assert before[i] == steps[i] && before[j] == steps[j];
        }
      }
      SortedFormDataIsProjection(before, latest);
      var prefix := Projection(before, latest);
      if last.0 in latest {
        var key := SummaryKey(last.0, last.1);
        assert key !in Keys(prefix);
      }
    }
  }

  // ---------------------------------------------------------------------------
  // The service
  // ---------------------------------------------------------------------------

  class ProcessService {
    const engine: TaskEngine
    const store: FormDataStore
    /** The configured process types. */
    const processes: Processes

    ghost predicate Valid()
      reads this, engine, store
    {
      engine.Valid() && store.Valid() && WellFormed(processes)
    }

    constructor (processes: Processes)
      requires WellFormed(processes)
      ensures Valid() && fresh(engine) && fresh(store)
      ensures this.processes == processes && engine.instances == map[] && store.rows == []
    {
      this.processes := processes;
      engine := new TaskEngine();
      store := new FormDataStore();
    }

    /** Starts a process of `processType` under the freshly generated id
        `processId` and reports it in the state "INIT". */
    method StartProcess(processType: string, processId: ProcessId) returns (r: Result<ProcessView, ServiceError>)
      requires Valid() && processId !in engine.instances
      modifies engine
      ensures Valid()
      ensures processType !in processes ==>
        r == Err(NullProcessConfig(processType)) && engine.instances == old(engine.instances)
      ensures processType in processes ==>
        && r == Ok(ProcessView(processId, "INIT"))
        && engine.instances == old(engine.instances)[processId := Instance(processes[processType].businessKey, processType, StepOne)]
    {
      if processType !in processes {
        return Err(NullProcessConfig(processType));
      }
      engine.StartProcessInstanceByKey(processes[processType].businessKey, processId, processType);
      r := Ok(ProcessView(processId, "INIT"));
    }

    /** Records the submitted form of `step` (unless the event is "BACK"),
        then completes the active task with the event and reports where the
        process now stands. */
    method SubmitStep(processId: ProcessId, step: string, uiEvent: string, formData: Payload)
      returns (r: Result<ProcessView, ServiceError>)
      requires Valid()
      modifies engine, store
      ensures Valid()
      ensures old(engine.ActiveTask(processId)).None? ==>
        && r == Err(ProcessNotFound(processId))
        && store.rows == old(store.rows)
        && engine.instances == old(engine.instances)
      ensures old(engine.ActiveTask(processId)).Some? ==>
        store.rows == old(store.rows) +
          if uiEvent == "BACK" then [] else [FormData(old(store.nextId), processId, step, formData)]
      ensures old(engine.ActiveTask(processId)).Some? ==>
        var instance := old(engine.instances[processId]);
        match Next(instance.state, uiEvent)
        case None =>
          && r == Err(TransitionRejected(processId, uiEvent))
          && engine.instances == old(engine.instances)
        case Some(t) =>
          && r == Ok(ProcessView(processId, ReportedState(t)))
          && engine.instances == old(engine.instances)[processId := instance.(state := t)]
    {
      var task := engine.ActiveTask(processId);
      if task.None? {
        return Err(ProcessNotFound(processId));
      }

      if uiEvent != "BACK" {
        var saved := store.Save(processId, step, formData);
      }

      var moved := engine.Complete(processId, uiEvent);
      if !moved {
        return Err(TransitionRejected(processId, uiEvent));
      }

      var nextTask := engine.ActiveTask(processId);
      var newState := if nextTask.Some? then nextTask.value else "COMPLETED";
      r := Ok(ProcessView(processId, newState));
    }

    /** The form of the active step of `processId`, with the data of the first
        row stored for that step, if there is one. */
    method GetFormDefinition(processId: ProcessId) returns (r: Result<FormDefinition, ServiceError>)
      requires Valid()
      ensures engine.ActiveTask(processId).None? ==> r == Err(ProcessNotFound(processId))
      ensures engine.ActiveTask(processId).Some? ==>
        var stepKey := engine.ActiveTask(processId).value;
        var processType := engine.instances[processId].processType;
        if processType !in processes then r == Err(ProcessTypeNotConfigured(processType))
        else match Get(processes[processType].steps, stepKey)
          case None => r == Err(StepNotConfigured(stepKey))
          case Some(config) =>
            && r.Ok?
            && r.value.processId == processId
            && r.value.processType == processType
            && r.value.currentState == stepKey
            && r.value.step == stepKey
            && r.value.title == config.title
            && r.value.fields == config.fields
            && r.value.actions == config.actions
            && (r.value.data.Some? <==> HasRowFor(store.rows, processId, stepKey))
            && (r.value.data.Some? ==>
                  exists x :: x in store.rows && x.processId == processId && x.step == stepKey
                    && r.value.data.value == x.payload
                    && forall y :: y in store.rows && y.processId == processId && y.step == stepKey ==> x.id <= y.id)
    {
      var task := engine.ActiveTask(processId);
      if task.None? {
        return Err(ProcessNotFound(processId));
      }
      var processType := engine.instances[processId].processType;
      if processType !in processes {
        return Err(ProcessTypeNotConfigured(processType));
      }
      var stepKey := task.value;
      var stepConfig := Get(processes[processType].steps, stepKey);
      if stepConfig.None? {
        return Err(StepNotConfigured(stepKey));
      }
      var config := stepConfig.value;

      var previousData := FindByProcessIdAndStep(store.rows, processId, stepKey);
      var data: Option<Payload> := None;
      if |previousData| > 0 {
        data := Some(previousData[0].payload);
        FirstIsEarliest(store.rows, processId, stepKey);
      }
      r := Ok(FormDefinition(processId, processType, stepKey, stepKey, config.title, config.fields, config.actions, data));
    }

    /** The latest payload of every submitted step of `processId`, in
        configuration order under each step's summary key. */
    method GetProcessSummary(processId: ProcessId) returns (r: Result<Summary, ServiceError>)
      requires Valid()
      ensures engine.ActiveTask(processId).None? ==> r == Err(ProcessNotFound(processId))
      ensures engine.ActiveTask(processId).Some? ==>
        var processType := engine.instances[processId].processType;
        if processType !in processes then r == Err(ProcessTypeNotConfigured(processType))
        else r == Ok(Summary(processId, processType,
                             SortedFormData(processes[processType].steps, LatestByStep(store.rows, processId))))
    {
      var task := engine.ActiveTask(processId);
      if task.None? {
        return Err(ProcessNotFound(processId));
      }
      var processType := engine.instances[processId].processType;
      if processType !in processes {
        return Err(ProcessTypeNotConfigured(processType));
      }
      var steps := processes[processType].steps;

      var latestFormData := FindLatestFormDataByProcess(store.rows, processId);
      LatestQueryOnePerStep(store.rows, processId);
      var latestFormDataMap := ToStepMap(latestFormData);

      var sortedFormData: seq<(string, Payload)> := [];
      var i := 0;
      while i < |steps|
        invariant 0 <= i <= |steps|
        invariant sortedFormData == SortedFormData(steps[..i], latestFormDataMap)
      {
        var (step, stepConfig) := steps[i];
        if step in latestFormDataMap {
          var stepTitle := stepConfig.title;
          sortedFormData := Put(sortedFormData,
                                if stepTitle.Some? then stepTitle.value else FallbackTitle(step),
                                latestFormDataMap[step].payload);
        }
        SortedFormDataSnoc(steps, i, latestFormDataMap);
        i := i + 1;
      }
      assert steps[..|steps|] == steps;
      r := Ok(Summary(processId, processType, sortedFormData));
    }
  }

  /** The row the form shows is the latest row of its step only when the
      step has a single row, so after a resubmission the form does not show
      the latest data (FirstIsEarliest: it shows the row with the smallest id). */
  lemma FirstIsLatestOnlyIfSole(rows: seq<FormData>, processId: ProcessId, step: string)
    requires IdsIncreasing(rows) && |FindByProcessIdAndStep(rows, processId, step)| > 0
    ensures IsLatest(rows, processId, FindByProcessIdAndStep(rows, processId, step)[0]) <==>
      |FindByProcessIdAndStep(rows, processId, step)| == 1
  {
    var found := FindByProcessIdAndStep(rows, processId, step);
    assert found[0] in found;
    if |found| > 1 {
      assert found[1] in found;
    } else {
      forall y | y in rows && y.processId == processId && y.step == step ensures y.id <= found[0].id {
        assert y in found;
      }
    }
  }

  /** In stored order, the first row of a (process, step) pair is the one
      with the smallest id. */
  lemma FirstIsEarliest(rows: seq<FormData>, processId: ProcessId, step: string)
    requires IdsIncreasing(rows) && |FindByProcessIdAndStep(rows, processId, step)| > 0
    ensures var first := FindByProcessIdAndStep(rows, processId, step)[0];
      && first in rows && first.processId == processId && first.step == step
      && forall y :: y in rows && y.processId == processId && y.step == step ==> first.id <= y.id
  {
    var found := FindByProcessIdAndStep(rows, processId, step);
    forall y | y in rows && y.processId == processId && y.step == step ensures found[0].id <= y.id {
      var k :| 0 <= k < |found| && found[k] == y;
    }
  }

  /** An event given by its name moves the instance as the table says. */
  lemma NextByName(s: State, e: Event)
    ensures Next(s, EventName(e)) == Transition(s, e)
  {
  }

  /** After two submissions of one step, the latest map holds the second. */
  lemma ScenarioLatest(older: FormData, newer: FormData)
    requires older.processId == newer.processId && older.step == newer.step && older.id < newer.id
    ensures LatestByStep([older, newer], older.processId) == map[older.step := newer]
  {
    var rows := [older, newer];
    var m := map[older.step := newer];
    assert IsLatestByStep(rows, older.processId, m) by {
      forall s ensures s in m <==> HasRowFor(rows, older.processId, s) {
        if s in m {
          assert newer in rows;
        }
      }
    }
    LatestByStepIsUnique(rows, older.processId, LatestByStep(rows, older.processId), m);
  }

  /** With only the first of two steps submitted, the summary is that step's entry. */
  lemma OneSubmittedOfTwo(a: (string, StepConfig), b: (string, StepConfig), row: FormData)
    requires a.0 != b.0
    ensures SortedFormData([a, b], map[a.0 := row]) == [(SummaryKey(a.0, a.1), row.payload)]
  {
    assert [a, b][..1] == [a];
    assert [a][..0] == [];
  }

  // ---------------------------------------------------------------------------
  // A walk through one process
  // ---------------------------------------------------------------------------

  /** A two-step process type "permit" whose first step has a title and whose
      second has none. */
  function Permit(stepOne: StepConfig, stepTwo: StepConfig): ProcessConfig {
    ProcessConfig("Permit", "permit_process", [("step_one", stepOne), ("step_two", stepTwo)])
  }

  /** The walk's process "p1" of type "permit" stands in `state` and the
      stored rows are `rows`. */
  ghost predicate WalkAt(service: ProcessService, stepOne: StepConfig, stepTwo: StepConfig, state: State, rows: seq<FormData>)
    reads service, service.engine, service.store
  {
    && service.Valid()
    && service.processes == map["permit" := Permit(stepOne, stepTwo)]
    && "p1" in service.engine.instances
    && service.engine.instances["p1"].state == state
    && service.engine.instances["p1"].processType == "permit"
    && service.store.rows == rows
  }

  /** Starts a "permit" process and submits STEP_ONE; the walk goes on with a
      BACK, a second submission of STEP_ONE and another BACK, and ends by
      reading the form and the summary: the form is filled with the first
      submission, the summary with the second. */
  method Resubmission(first: Payload, second: Payload)
    requires first != second
  {
    var stepOne := StepConfig(Some("Applicant"), [], []);
    var stepTwo := StepConfig(None, [], []);
    var service := new ProcessService(map["permit" := Permit(stepOne, stepTwo)]);
    var n := service.store.nextId;
    NextByName(StepOne, StepOneSubmit);

    var started := service.StartProcess("permit", "p1");
    assert started == Ok(ProcessView("p1", "INIT"));

    var older := FormData(n, "p1", "step_one", first);
    var submitted := service.SubmitStep("p1", "step_one", "STEP_ONE_SUBMIT", first);
    assert submitted == Ok(ProcessView("p1", "step_two"));
    assert service.store.rows == [older];
    GoBack(service, stepOne, stepTwo, older, second);
  }

  method GoBack(service: ProcessService, stepOne: StepConfig, stepTwo: StepConfig, older: FormData, second: Payload)
    requires WalkAt(service, stepOne, stepTwo, StepTwo, [older])
    requires older.processId == "p1" && older.step == "step_one" && older.payload != second
    modifies service.engine, service.store
  {
    NextByName(StepTwo, Back);
    var back := service.SubmitStep("p1", "step_two", "BACK", second);
    assert back == Ok(ProcessView("p1", "step_one"));
    assert service.store.rows == [older];
    SubmitAgain(service, stepOne, stepTwo, older, second);
  }

  method SubmitAgain(service: ProcessService, stepOne: StepConfig, stepTwo: StepConfig, older: FormData, second: Payload)
    requires WalkAt(service, stepOne, stepTwo, StepOne, [older])
    requires older.processId == "p1" && older.step == "step_one" && older.payload != second
    modifies service.engine, service.store
  {
    NextByName(StepOne, StepOneSubmit);
    var newer := FormData(service.store.nextId, "p1", "step_one", second);
    var again := service.SubmitStep("p1", "step_one", "STEP_ONE_SUBMIT", second);
    assert again == Ok(ProcessView("p1", "step_two"));
    assert service.store.rows == [older, newer];
    GoBackAgain(service, stepOne, stepTwo, older, newer);
  }

  method GoBackAgain(service: ProcessService, stepOne: StepConfig, stepTwo: StepConfig, older: FormData, newer: FormData)
    requires WalkAt(service, stepOne, stepTwo, StepTwo, [older, newer])
    requires older.processId == newer.processId == "p1" && older.step == newer.step == "step_one"
    requires older.payload != newer.payload && older.id < newer.id
    modifies service.engine, service.store
  {
    NextByName(StepTwo, Back);
    var back := service.SubmitStep("p1", "step_two", "BACK", older.payload);
    assert back == Ok(ProcessView("p1", "step_one"));
    assert service.store.rows == [older, newer];
    ReadForm(service, stepOne, stepTwo, older, newer);
    ReadSummary(service, stepOne, stepTwo, older, newer);
  }

  /** The form of STEP_ONE is filled with the older of its two rows. */
  method ReadForm(service: ProcessService, stepOne: StepConfig, stepTwo: StepConfig, older: FormData, newer: FormData)
    requires WalkAt(service, stepOne, stepTwo, StepOne, [older, newer])
    requires older.processId == newer.processId == "p1" && older.step == newer.step == "step_one"
    requires older.id < newer.id
  {
    var form := service.GetFormDefinition("p1");
    assert form.Ok? && form.value.step == "step_one";
    assert form.value.data == Some(older.payload) by {
      var x :| x in [older, newer] && x.processId == "p1" && x.step == "step_one"
        && form.value.data.value == x.payload
        && forall y :: y in [older, newer] && y.processId == "p1" && y.step == "step_one" ==> x.id <= y.id;
      assert x.id <= older.id;
    }
  }

  /** The summary shows the newer row of STEP_ONE under its title. */
  method ReadSummary(service: ProcessService, stepOne: StepConfig, stepTwo: StepConfig, older: FormData, newer: FormData)
    requires WalkAt(service, stepOne, stepTwo, StepOne, [older, newer])
    requires older.processId == newer.processId == "p1" && older.step == newer.step == "step_one"
    requires older.id < newer.id
  {
    var summary := service.GetProcessSummary("p1");
    ScenarioLatest(older, newer);
    OneSubmittedOfTwo(("step_one", stepOne), ("step_two", stepTwo), newer);
    assert summary.Ok? && summary.value.formData == [(SummaryKey("step_one", stepOne), newer.payload)];
  }
}
