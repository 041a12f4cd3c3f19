/** The per-process-type form configuration, as plain data: for each process
    type, the engine's process definition key and the steps in their declared
    order, each with an optional title and its fields and actions. */
module FormFieldConfig {
  import opened Common

  /** A Java `label` is a `caption` here (`label` is a Dafny keyword). */
  datatype OptionConfig = OptionConfig(value: string, caption: string)

  datatype FieldConfig = FieldConfig(
    id: string,
    caption: string,
    kind: string,
    required: bool,
    defaultValue: Option<string>,
    options: seq<OptionConfig>)

  datatype ActionConfig = ActionConfig(id: string, caption: string, event: string)

  /** A step's form; a missing title is None. */
  datatype StepConfig = StepConfig(title: Option<string>, fields: seq<FieldConfig>, actions: seq<ActionConfig>)

  /** `steps` keeps the declaration order of its keys, as a LinkedHashMap does. */
  datatype ProcessConfig = ProcessConfig(name: string, businessKey: string, steps: seq<(string, StepConfig)>)

  /** Process type to its configuration (a HashMap: no order). */
  type Processes = map<string, ProcessConfig>

  /** Every process type's step keys are distinct, as the keys of a map are. */
  predicate WellFormed(processes: Processes) {
    forall t :: t in processes ==> DistinctKeys(processes[t].steps)
  }
}
