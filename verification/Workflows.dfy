/** Workflow definitions, the durable record of a run, and the external services a run calls. */
module Workflows {
  import opened Values
  import opened Contexts
  import opened Prompts

  /** A workflow step. An absent condition or loop source is the empty string, as both are
      only tested for truth. */
  datatype Step = Step(
    id: nat,
    name: string,
    stepType: string,
    order: int,
    config: Option<Config>,
    condition: string,
    onTrue: Option<nat>,
    onFalse: Option<nat>,
    loopSource: string,
    loopVariable: string)

  /** A validated step has a configuration. */
  function ConfigOf(step: Step): Config {
    if step.config.Some? then step.config.value else []
  }

  /** str(step.id), the other key under which a step publishes. */
  function Key(h: Host, step: Step): string {
    h.show(Id(step.id))
  }

  predicate Looping(step: Step) {
    step.loopSource != ""
  }

  /** step.loop_variable or "item" */
  function LoopVariable(step: Step): string {
    if step.loopVariable != "" then step.loopVariable else "item"
  }

  datatype Status = Pending | Running | Completed | Failed

  datatype Namespace = Outputs | Artifacts | Assets | Images | Videos | Variables

  type Bytes = seq<bv8>

  /** One durable write, external generation or context update, in the order of their effect.
      Identifiers and object keys that the source draws with uuid4 are fresh numbers. */
  datatype Event =
    | ExecutionStatus(execution: Status)
    | StepStatus(step: nat, status: Status)
    | History(scope: Option<nat>, to: Status)
    | JobCreated(job: nat, of: nat, name: string, input: Config, item: Option<Value>)
    | JobUpdated(job: nat, now: Status, output: Option<Value>)
    | Prompted(origin: nat, prompt: PromptComposition)
    | ObjectStored(stored: nat, body: Bytes)
    | AssetCreated(asset: nat, contentType: string, size: nat, objectKey: nat)
    | ArtifactCreated(artifact: nat, from: nat, kind: string, assetId: Option<nat>)
    | Presigned(target: nat, url: string)
    | Published(space: Namespace, key: string, value: Value)
    | ErrorRecorded(at: Option<nat>, code: string, message: string)
    | MetricRecorded(metric: string, amount: Option<nat>)

  datatype TextAnswer = TextAnswer(content: Value, metadata: Value, artifactType: string, assetId: Option<nat>)

  datatype ImageAnswer = ImageAnswer(url: string, bytes: Bytes, mime: string, metadata: Value)

  datatype RenderAnswer = RenderAnswer(video: Bytes, metadata: Config)

  /** Providers, storage and renderer as oracles: each call gets the next ticket number and
      returns a value or raises. asset says which assets existed before the run. */
  datatype Services = Services(
    text: nat -> Result<TextAnswer, string>,
    image: nat -> Result<ImageAnswer, string>,
    fetch: nat -> Result<Bytes, string>,
    upload: nat -> Result<(), string>,
    presign: nat -> Result<string, string>,
    download: nat -> Result<Bytes, string>,
    render: nat -> Result<RenderAnswer, string>,
    asset: nat -> bool)

  function Put(c: Context, space: Namespace, key: string, v: Value): Context {
    match space
    case Outputs => c.(outputs := c.outputs[key := v])
    case Artifacts => c.(artifacts := c.artifacts[key := v])
    case Assets => c.(assets := c.assets[key := v])
    case Images => c.(images := c.images[key := v])
    case Videos => c.(videos := c.videos[key := v])
    case Variables => c.(variables := c.variables[key := v])
  }

  function Space(c: Context, space: Namespace): map<string, Value> {
    match space
    case Outputs => c.outputs
    case Artifacts => c.artifacts
    case Assets => c.assets
    case Images => c.images
    case Videos => c.videos
    case Variables => c.variables
  }
}
