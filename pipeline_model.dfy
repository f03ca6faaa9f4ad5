/** The values that flow through a stage's evaluation context, and the heap
    objects (maps, stages, stage contexts) that the processor reads and
    updates in place. */
module PipelineModel {

  datatype Option<+T> = None | Some(value: T)

  datatype Result<+T, +E> = Ok(value: T) | Err(error: E)

  /** The exceptions that can escape the processor. */
  datatype Error =
    | ConversionError   // the object mapper rejects the shape it is asked to convert
    | ClassCastError    // a value is not of the type a cast demands
    | NullPointerError  // a method is invoked on null

  /** One source-control record of a build. */
  datatype SourceControl = SourceControl(name: Option<string>, branch: Option<string>, sha1: Option<string>)

  /** Build metadata; `scm` is the (possibly null) list of source-control records. */
  datatype BuildInfo = BuildInfo(name: Option<string>, number: int, scm: Option<seq<SourceControl>>)

  /** The closed set of trigger variants the processor distinguishes. Every
      trigger has a parameters map (empty when none were given); only the
      Jenkins and Concourse variants carry build metadata. */
  datatype Trigger =
    | DefaultTrigger(kind: string, parameters: map<string, Value>)
    | JenkinsTrigger(master: string, job: string, buildNumber: int,
                     parameters: map<string, Value>, buildInfo: Option<BuildInfo>)
    | ConcourseTrigger(parameters: map<string, Value>, buildInfo: Option<BuildInfo>)

  datatype ExecutionType = Pipeline | Orchestration

  /** The execution that owns a stage; an opaque reference as far as the
      processor is concerned, except for its type and trigger. */
  datatype Execution = Execution(id: string, kind: ExecutionType, trigger: Trigger)

  /** An arbitrary value stored under a key of a context: a JSON-like tree, or
      one of the domain objects that callers place there already decoded. */
  datatype Value =
    | Null
    | Bool(b: bool)
    | Int(i: int)
    | Str(s: string)
    | List(items: seq<Value>)
    | Dict(entries: map<string, Value>)
    | TriggerObj(trigger: Trigger)
    | BuildInfoObj(buildInfo: BuildInfo)
    | ScmObj(scm: SourceControl)
    | ExecutionObj(execution: Execution)

  /** Map.get: the value under `key`, or null when the key is absent. */
  function Lookup(m: map<string, Value>, key: string): Value
  {
    if key in m then m[key] else Null
  }

  /** A mutable string-keyed map, shared by reference like a java.util.Map. */
  class MutableMap {
    var entries: map<string, Value>

    constructor (entries: map<string, Value>)
      ensures this.entries == entries
    {
      this.entries := entries;
    }

    function Get(key: string): Value
      reads this
    {
      Lookup(entries, key)
    }

    predicate ContainsKey(key: string)
      reads this
    {
      key in entries
    }

    predicate IsEmpty()
      reads this
    {
      entries == map[]
    }

    method Put(key: string, v: Value)
      modifies this
      ensures entries == old(entries)[key := v]
    {
      entries := entries[key := v];
    }

    method PutAll(other: MutableMap)
      modifies this
      ensures entries == old(entries) + old(other.entries)
    {
      entries := entries + other.entries;
    }
  }

  /** A stage: its own context map and the execution that owns it. */
  class Stage {
    const context: MutableMap
    const execution: Execution

    constructor (context: MutableMap, execution: Execution)
      ensures this.context == context && this.execution == execution
    {
      this.context := context;
      this.execution := execution;
    }
  }

  /** The pairing of a stage with the map its expressions are evaluated against. */
  class StageContext {
    const stage: Stage
    const context: MutableMap

    constructor (stage: Stage, context: MutableMap)
      ensures this.stage == stage && this.context == context
    {
      this.stage := stage;
      this.context := context;
    }
  }
}
