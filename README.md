# A verified model of the multi-step form workflow

This project models the core of `spring-statemachine-webapp`: a resumable,
multi-step form workflow. A user picks a process type and walks through its
steps (STEP_ONE, STEP_TWO, STEP_THREE, SUBMISSION). They can go BACK one step
or RESET to PROCESS_SELECTION. Every submitted form is appended to a form-data
log, so a step that is revisited and resubmitted keeps its history. The summary
shows the latest submission of each step in the configured step order.

Modules, one per core component:

- `Common` (`common.dfy`): optional values, results, the opaque JSON payload,
  and Java's `LinkedHashMap` as an association list (`Get`, `Put`) with its
  laws.
- `StateMachineConfig` (`state_machine_config.dfy`):
  - the states and events, the initial and end states, and the transition
    table in its declared order;
  - the transition lookup;
  - runs of events and reachability from the initial state;
  - `saveProcessAction`, as a pure function and as a method on a
    `ProcessRepository` object.
- `FormFieldConfig` (`form_field_config.dfy`): the per-type configuration as
  data. The steps of a type are an insertion-ordered association list.
- `FormDataRepository` (`form_data_repository.dfy`):
  - the `form_data` table as a log of rows with increasing identity ids, kept
    by a `FormDataStore` object;
  - the derived query `findByProcessIdAndStep`;
  - the JPQL query `findLatestFormDataByProcess`, with its
    `MAX(id) ... GROUP BY step` subquery written out;
  - the step-keyed map that the service collects from the query.
- `ProcessService` (`process_service.dfy`):
  - the process engine as the service sees it: a `TaskEngine` whose instances
    advance by the transition table;
  - the `ProcessService` object with `StartProcess`, `SubmitStep`,
    `GetFormDefinition` and `GetProcessSummary`;
  - the summary's pure specification, and a walk through one process that
    resubmits a step.

The service, the form-data log and the task engine share one process id: the
string business key that `startProcess` generates (`ProcessId`). The `Process`
record that `saveProcessAction` writes keeps its `Long` id, modelled as `int`,
because the action's cast to `Long` decides whether it fails. Payloads are an
opaque type that is only stored and returned.

The BPMN definition is not in the repository. The model assumes its user
tasks are keyed `selection`, `step_one`, `step_two`, `step_three` and
`submission`. These are the keys the step configuration must use for
`getFormDefinition` to find a step. The end states have no task.

Behaviour of the code kept as written:

- `startProcess` reports the state `"INIT"`, not STEP_ONE (ProcessService.java:53).
- The form's stored data is the first row of `findByProcessIdAndStep`, not the
  most recent one (ProcessService.java:109). `FirstIsEarliest` proves it is
  the row with the smallest id. `FirstIsLatestOnlyIfSole` proves it is the
  latest row only when the step has a single row.
- A finished process has no active task, so both `getFormDefinition` and
  `getProcessSummary` fail with ProcessNotFound for it.
- An unknown process type makes `startProcess` dereference null
  (ProcessService.java:50). That is a distinct error (`NullProcessConfig`),
  not the "not configured" error of the two read operations.
- The summary carries no `currentState`.

## Model

| member | source | states |
|---|---|---|
| Common.Get | src/main/java/com/example/demolition/config/FormFieldConfig.java:20 | `get` finds a value exactly for the keys present, that value is stored under the key, and with distinct keys it is the only one |
| Common.Put | src/main/java/com/example/demolition/service/ProcessService.java:143-146 | `LinkedHashMap.put`: a new key is appended at the end with its value; an existing key keeps the length |
| Common.PutKeys | src/main/java/com/example/demolition/service/ProcessService.java:143-146 | after `put(k, v)` the key set is the old one plus `k` |
| Common.PutKeepsPositions | src/main/java/com/example/demolition/service/ProcessService.java:143-146 | putting an existing key leaves every position's key in place, so insertion order is kept |
| Common.PutDistinct | src/main/java/com/example/demolition/service/ProcessService.java:143-146 | `put` never creates a duplicate key |
| Common.PutGet | src/main/java/com/example/demolition/service/ProcessService.java:143-146 | after `put(k, v)`, `get(k)` is `v` and every other key reads as before |
| StateMachineConfig.ParseEvent | src/main/java/com/example/demolition/service/ProcessService.java:70-72 | the raw `uiEvent` string handed to the engine denotes an event exactly when it is that event's name, one of the seven events of the table at StateMachineConfig.java:48-112 (name matching assumed) |
| StateMachineConfig.Transition | src/main/java/com/example/demolition/config/StateMachineConfig.java:48-113 | the lookup yields `t` for `(s, e)` exactly when the declared table has the row `(s, e, t)` |
| StateMachineConfig.TableIsDeterministic | src/main/java/com/example/demolition/config/StateMachineConfig.java:48-113 | no source and event pair is declared twice |
| StateMachineConfig.ForwardChain | src/main/java/com/example/demolition/config/StateMachineConfig.java:50-73 | each forward event moves exactly one place along PROCESS_SELECTION, STEP_ONE, ..., COMPLETED, and only from its own place |
| StateMachineConfig.BackIsOneStep | src/main/java/com/example/demolition/config/StateMachineConfig.java:76-90 | BACK moves exactly one place back, from STEP_TWO, STEP_THREE and SUBMISSION only |
| StateMachineConfig.ResetReturnsToSelection | src/main/java/com/example/demolition/config/StateMachineConfig.java:93-112 | RESET leads to PROCESS_SELECTION from the four step states and is refused elsewhere |
| StateMachineConfig.EndStates | src/main/java/com/example/demolition/config/StateMachineConfig.java:41-44 | the end states COMPLETED and ERROR have no outgoing transition, nothing enters ERROR, and only FINAL_SUBMIT from SUBMISSION enters COMPLETED |
| StateMachineConfig.RunSnoc | src/main/java/com/example/demolition/config/StateMachineConfig.java:48-113 | a run extended by one event is the run followed by that event's transition |
| StateMachineConfig.RunAvoidsError | src/main/java/com/example/demolition/config/StateMachineConfig.java:43-44 | no run of events from a state other than ERROR ends in ERROR |
| StateMachineConfig.RunAlongChain | src/main/java/com/example/demolition/config/StateMachineConfig.java:50-73 | the first `n` forward events lead from the initial state to the `n`-th state of the chain |
| StateMachineConfig.ReachableStep | src/main/java/com/example/demolition/config/StateMachineConfig.java:48-113 | every transition from a reachable state leads to a reachable state |
| StateMachineConfig.ReachableStates | src/main/java/com/example/demolition/config/StateMachineConfig.java:38-113 | from the initial state PROCESS_SELECTION every state but ERROR is reachable, and ERROR is not |
| StateMachineConfig.EndStatesAbsorb | src/main/java/com/example/demolition/config/StateMachineConfig.java:43-44 | from an end state, no non-empty run of events is accepted |
| StateMachineConfig.SaveAction | src/main/java/com/example/demolition/config/StateMachineConfig.java:136-147 | the action fails (ClassCastException) exactly when `processId` is present but not a Long; otherwise it keeps the set of stored processes and sets `currentState` to the target's name on the one process whose id matches, and on no other |
| StateMachineConfig.ProcessRepository.SaveProcessAction | src/main/java/com/example/demolition/config/StateMachineConfig.java:136-147 | the repository ends in the state `SaveAction` gives, and is unchanged when the action fails |
| FormDataRepository.UniqueIds | src/main/java/com/example/demolition/entity/FormData.java:15-17 | with identity ids, two stored rows with the same id are the same row |
| FormDataRepository.Where | src/main/java/com/example/demolition/repository/FormDataRepository.java:14-18 | a `WHERE` filter keeps exactly the rows satisfying the condition |
| FormDataRepository.WhereKeepsOrder | src/main/java/com/example/demolition/repository/FormDataRepository.java:14-18 | filtering keeps the rows in id order |
| FormDataRepository.FindByProcessIdAndStep | src/main/java/com/example/demolition/repository/FormDataRepository.java:14 | returns exactly the stored rows of that process and step, in id order |
| FormDataRepository.MaxId | src/main/java/com/example/demolition/repository/FormDataRepository.java:16-17 | `MAX(id)` of one step's group is absent exactly when the group is empty; otherwise it is the id of a row in the group and no row in the group has a greater id |
| FormDataRepository.FindLatestFormDataByProcess | src/main/java/com/example/demolition/repository/FormDataRepository.java:16-18 | returns exactly the rows of the process whose id is the greatest id of some step, in id order |
| FormDataRepository.LatestIsUnique | src/main/java/com/example/demolition/repository/FormDataRepository.java:16-18 | a step has at most one latest row |
| FormDataRepository.LatestQueryIsLatestRows | src/main/java/com/example/demolition/repository/FormDataRepository.java:16-18 | a row is in the query's result exactly when it is the latest row of its step |
| FormDataRepository.QueryRowIsLatest | src/main/java/com/example/demolition/repository/FormDataRepository.java:16-18 | a row carrying the greatest id of some step is the latest row of its own step |
| FormDataRepository.LatestRowIsInQuery | src/main/java/com/example/demolition/repository/FormDataRepository.java:16-18 | the latest row of a step carries that step's greatest id |
| FormDataRepository.LatestQueryCoversSteps | src/main/java/com/example/demolition/repository/FormDataRepository.java:16-18 | the result has a row for a step exactly when some row of the process is stored for it |
| FormDataRepository.LatestQueryOnePerStep | src/main/java/com/example/demolition/repository/FormDataRepository.java:16-18 | the result holds at most one row per step |
| FormDataRepository.ToStepMap | src/main/java/com/example/demolition/service/ProcessService.java:135-136 | `Collectors.toMap(getStep, identity)` maps exactly the steps present, each to its row |
| FormDataRepository.LatestByStep | src/main/java/com/example/demolition/service/ProcessService.java:134-136 | the map holds exactly the steps with a stored row of the process, each mapped to its latest row |
| FormDataRepository.LatestByStepIsUnique | src/main/java/com/example/demolition/service/ProcessService.java:134-136 | only one map meets that description |
| FormDataRepository.LatestByStepAppend | src/main/java/com/example/demolition/service/ProcessService.java:62-68 | saving a new row replaces the latest entry of its own step for its own process and changes nothing else |
| FormDataRepository.AppendKeepsLatest | src/main/java/com/example/demolition/service/ProcessService.java:62-68 | after an append, the old latest map updated at the new row's step describes the new log |
| FormDataRepository.LatestExtends | src/main/java/com/example/demolition/service/ProcessService.java:62-68 | a latest row stays latest when a row of another step or process is appended |
| FormDataRepository.FormDataStore.Save | src/main/java/com/example/demolition/service/ProcessService.java:63-67 | `save` appends one row carrying the next identity value and keeps the ids increasing |
| ProcessService.TaskKey | src/main/java/com/example/demolition/service/ProcessService.java:92 | a state has an active task key exactly when it is not an end state |
| ProcessService.TaskKeyInjective | src/main/java/com/example/demolition/service/ProcessService.java:92 | the task key determines the state |
| ProcessService.Next | src/main/java/com/example/demolition/service/ProcessService.java:70-72 | completing a task with `uiEvent` leads to `t` exactly when `uiEvent` names an event whose transition leads to `t` |
| ProcessService.TaskEngine.ActiveTask | src/main/java/com/example/demolition/service/ProcessService.java:57-60 | a process has an active task exactly when it has an instance that is not in an end state |
| ProcessService.TaskEngine.StartProcessInstanceByKey | src/main/java/com/example/demolition/service/ProcessService.java:50 | starts one new instance under the business key, at STEP_ONE, and changes no other instance |
| ProcessService.TaskEngine.Complete | src/main/java/com/example/demolition/service/ProcessService.java:70-72 | the instance moves exactly as `Next` says; when no transition matches, nothing changes and the completion is refused |
| ProcessService.InstancesAvoidError | src/main/java/com/example/demolition/config/StateMachineConfig.java:43-44 | no instance of a valid engine is in ERROR |
| ProcessService.ReportedState | src/main/java/com/example/demolition/service/ProcessService.java:74-75 | the reported state is the next task's key, or "COMPLETED" when no task is left |
| ProcessService.ReplaceUnderscores | src/main/java/com/example/demolition/service/ProcessService.java:144 | `replace("_", " ")` changes every underscore to a space and nothing else |
| ProcessService.UpperAscii | src/main/java/com/example/demolition/service/ProcessService.java:144 | `toUpperCase` upper-cases every letter `a`-`z` and nothing else |
| ProcessService.FallbackTitleShape | src/main/java/com/example/demolition/service/ProcessService.java:144 | the default key of an untitled step has the key's length, no underscore and no lower-case letter, and leaves every other character in place |
| ProcessService.FallbackTitle | src/main/java/com/example/demolition/service/ProcessService.java:144 | the default key has the step key's length, and each character is the step key's character with an underscore turned into a space and then upper-cased |
| ProcessService.SummaryKey | src/main/java/com/example/demolition/service/ProcessService.java:142-144 | a step's summary key is its title when it has one; without a title it is, character by character, the step key with underscores turned into spaces and letters upper-cased |
| ProcessService.SortedFormData | src/main/java/com/example/demolition/service/ProcessService.java:139-148 | the summary's form data has distinct keys and no more entries than there are steps |
| ProcessService.SortedFormDataGet | src/main/java/com/example/demolition/service/ProcessService.java:140-147 | visiting one more step changes a lookup only for that step's key, and only when the step was submitted |
| ProcessService.SortedFormDataValue | src/main/java/com/example/demolition/service/ProcessService.java:139-148 | the value under a summary key is the latest payload of the last submitted step with that key, in configuration order |
| ProcessService.Projection | src/main/java/com/example/demolition/service/ProcessService.java:139-148 | the sparse projection holds an entry exactly for each step that has a latest row |
| ProcessService.ProjectionKeepsOrder | src/main/java/com/example/demolition/service/ProcessService.java:139-148 | two submitted steps appear in configuration order, whatever the order of submission |
| ProcessService.SortedFormDataIsProjection | src/main/java/com/example/demolition/service/ProcessService.java:139-148 | when no two submitted steps share a summary key, the summary is exactly the sparse projection in configuration order |
| ProcessService.ProcessService.StartProcess | src/main/java/com/example/demolition/service/ProcessService.java:42-54 | a configured type starts one instance at STEP_ONE under the new id and reports "INIT"; an unknown type fails with a null dereference and starts nothing |
| ProcessService.ProcessService.SubmitStep | src/main/java/com/example/demolition/service/ProcessService.java:56-77 | no active task: ProcessNotFound, nothing changes. Otherwise one row is appended unless the event is "BACK"; the instance then moves as `Next` says and the new task key or "COMPLETED" is reported. An event with no transition is refused after the row was saved |
| ProcessService.ProcessService.GetFormDefinition | src/main/java/com/example/demolition/service/ProcessService.java:80-113 | the three failures in their order; otherwise the step's title, fields and actions. Data is present exactly when a row is stored for the step, and it is the payload of the row with the smallest id |
| ProcessService.ProcessService.GetProcessSummary | src/main/java/com/example/demolition/service/ProcessService.java:116-152 | the two failures; otherwise the form data is `SortedFormData` of the configured steps over the latest row of each step |
| ProcessService.FirstIsLatestOnlyIfSole | src/main/java/com/example/demolition/service/ProcessService.java:107-110 | the row the form shows is the latest of its step exactly when the step has a single row |
| ProcessService.FirstIsEarliest | src/main/java/com/example/demolition/service/ProcessService.java:107-110 | the first row found for a step is stored, belongs to the step, and has the smallest id of its rows |

## Left out

- The BPMN process definition is not part of this model. `TaskEngine` stands
  in for it:
  - a started instance stands at STEP_ONE;
  - completing a task applies the transition whose event name equals the
    raw `uiEvent` string handed to the engine (ProcessService.java:70-72);
    this name matching is assumed, since the BPMN definition that reads the
    variable is absent;
  - an event with no transition is refused.
- The user-task keys are assumed, because the BPMN definition that declares
  them is not in the repository.
- Camunda's task query, variables, history and transactions are not modelled.
- The `Process` record that `saveProcessAction` writes is modelled, but the
  Spring state machine that would run the action is not wired to the service,
  as in the code. Timestamps on the record are left out.
- Persistence of state-machine contexts is commented out in the source and is
  left out.
- The state machine's listener only logs, so it is left out. Auto-startup is
  left out too.
- Controllers, the bootstrapping class and the JPA persister configuration are
  not part of this model.
- Jackson is left out: forms are an opaque `Payload`. Fields, actions and
  options are carried as data and never interpreted.
- UUID generation is a parameter of `StartProcess`: a fresh id. The
  `createdAt` clock value is left out.
- `toUpperCase` is modelled on ASCII letters only. Locale-dependent
  upper-casing is not modelled.
- The database's row order: `findByProcessIdAndStep` has no ORDER BY, and the
  model returns rows in id order.
- Transactions and concurrency between requests are left out. Each operation
  is one atomic step on the objects.
- FormDataRepository.ToStepMap: the duplicate-key exception of
  `Collectors.toMap` is a precondition here, because `LatestQueryOnePerStep`
  proves the query never returns two rows of one step.
- The form-data log and its queries use the string `ProcessId`. The
  repository's signatures declare a `Long`, and the query compares
  `f.process.id`. The `FormData` entity has no `processId` field and no
  `setProcessId` setter; it reaches its process only through the `process`
  association joined on the `process_id` column (FormData.java:26-29). The
  model keeps the process id on the row, as `submitStep` sets it. The
  `Process` record of `saveProcessAction` keeps its `Long` (`int`) id.
- `saveProcessAction` reads `processId` from the Spring state machine's
  extended state (StateMachineConfig.java:138). None of the modelled code
  writes that variable, and the action is attached to no transition
  (48-113). The cast fails on a value that is present but not a Long; the
  model keeps that failure as an error result (`SaveAction`).
- `getProcessSummary` reports a missing configuration with a different message
  ("Process configuration not found") than `getFormDefinition` does. Both are
  `ProcessTypeNotConfigured` here.
