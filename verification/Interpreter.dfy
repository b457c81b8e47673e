/** The meaning of WorkflowRuntime.run (apps/api/workflow/runtime.py) as a recursive
    interpreter over (step index, machine). Exceptions are values. */
module Interpreter {
  import opened Values
  import opened References
  import opened Contexts
  import opened Conditions
  import Prompts
  import opened Workflows

  /** Everything a run reads and writes. clock numbers external calls and fresh identifiers;
      job is the job variable of the step being visited. */
  datatype Machine = Machine(
    log: seq<Event>,
    clock: nat,
    context: Context,
    job: Option<nat>,
    executed: seq<nat>,
    successes: nat,
    failures: nat)

  /** Why a step raises. CallFailed, EmptyImage and Unusable are failures of an external
      service, the last a text of its answer that no column holds; every other fault is found
      by the interpreter itself. */
  datatype Fault =
    | CallFailed(reason: string)
    | EmptyImage
    | Unusable(complaint: string)
    | UnknownProvider(text: string)
    | UnknownOperation(shown: string)
    | PromptFault(problem: Prompts.PromptError)
    | NoInput
    | InputUnresolved(token: string)
    | InputNotUuid
    | NoInputAsset(shown: string)
    | LoopUnresolved(token: string)
    | LoopNotAList(complaint: string)
    | NameTooLong(complaint: string)
    | ConditionFault(error: ConditionError)
    | NoTarget(shown: string)

  predicate External(f: Fault) {
    f.CallFailed? || f.EmptyImage? || f.Unusable?
  }

  /** str(e) */
  function Message(f: Fault): string {
    match f
    case CallFailed(reason) => reason
    case EmptyImage => "AI Provider returned empty image response"
    case Unusable(complaint) => complaint
    case UnknownProvider(text) => text
    case UnknownOperation(shown) => "Unsupported AI operation: " + shown
    case PromptFault(Blank(text)) => "Variable resolution failed: " + text
    case PromptFault(Unresolved(token)) => "Variable resolution failed: Unresolved variable: " + token
    case NoInput => "video_render requires input_asset"
    case InputUnresolved(token) => "Video input resolution failed: Unresolved variable: " + token
    case InputNotUuid => "Video input resolution failed: badly formed hexadecimal UUID string"
    case NoInputAsset(shown) => "Video input asset not found: " + shown
    case LoopUnresolved(token) => "Loop resolution failed: Unresolved variable: " + token
    case LoopNotAList(complaint) => "Loop resolution failed: Loop source must be a list, got " + complaint
    case NameTooLong(complaint) => complaint
    case ConditionFault(BadSyntax(text)) => "Condition evaluation failed: Invalid condition syntax: " + text
    case ConditionFault(Unresolved(token)) => "Condition evaluation failed: Unresolved variable: " + token
    case NoTarget(shown) => "Condition evaluation failed: Target step " + shown + " not found in workflow"
  }

  // ----- what the columns hold -----

  const MAX_ERROR := 1000
  const MAX_HISTORY := 500
  const MAX_NAME := 255
  const MAX_KIND := 100

  /** str(e) or a fixed text. */
  function ErrorText(f: Fault): string {
    if Message(f) != "" then Message(f) else "Unknown error occurred during step execution"
  }

  /** The history entry of a failed step, with str(e) itself. */
  function HistoryText(step: Step, f: Fault): string {
    "Step " + step.name + " failed: " + Message(f)
  }

  /** The error row is built with a limited message. */
  predicate RecordFits(f: Fault) {
    |ErrorText(f)| <= MAX_ERROR
  }

  /** The history row's message column is shorter. */
  predicate HistoryFits(step: Step, f: Fault) {
    |HistoryText(step, f)| <= MAX_HISTORY
  }

  datatype Outcome<+T> = Done(m: Machine, value: T) | Raised(m: Machine, error: Fault)

  function Emit(m: Machine, e: Event): Machine {
    m.(log := m.log + [e])
  }

  function Tick(m: Machine): Machine {
    m.(clock := m.clock + 1)
  }

  function Set(m: Machine, space: Namespace, key: string, v: Value): Machine {
    Emit(m, Published(space, key, v)).(context := Put(m.context, space, key, v))
  }

  /** Every step value is published under the step's id and under its name. */
  function SetBoth(h: Host, m: Machine, space: Namespace, step: Step, v: Value): Machine {
    Set(Set(m, space, Key(h, step), v), space, step.name, v)
  }

  function Operation(step: Step): Value {
    match Get(ConfigOf(step), "operation")
    case Some(v) => v
    case None => Str("text_generation")
  }

  function Provider(step: Step): Value {
    match Get(ConfigOf(step), "provider")
    case Some(v) => v
    case None => Str("mock")
  }

  /** The factory's own text for a name, the library's for anything else. */
  function UnknownProviderOf(h: Host, step: Step): Fault {
    match Provider(step)
    case Str(name) => UnknownProvider("Unsupported AI provider: " + name)
    case v => UnknownProvider(h.complaint(v))
  }

  /** What one iteration yields: its entry in iteration_results and the job's output_data. */
  datatype Product = Product(result: Value, output: Value)

  function TextOperation(h: Host, env: Services, m: Machine, step: Step): Outcome<Product> {
    if !h.provider(Provider(step)) then Raised(m, UnknownProviderOf(h, step))
    else
      match Prompts.Build(h, m.context, ConfigOf(step), step.name)
      case Err(e) => Raised(m, PromptFault(e))
      case Ok(prompt) =>
        var m1 := Tick(Emit(m, Prompted(step.id, prompt)));
        match env.text(m.clock)
        case Err(e) => Raised(m1, CallFailed(e))
        case Ok(a) =>
          if |a.artifactType| > MAX_KIND then Raised(m1, Unusable(h.complaint(Str(a.artifactType))))
          else Done(FinishText(h, m1, step, a), Product(a.content, Dict([Field("result", a.content), Field("metadata", a.metadata)])))
  }

  /** The artifact and the asset of an answer, recorded and published. */
  function FinishText(h: Host, m: Machine, step: Step, a: TextAnswer): Machine {
    var m2 := if a.artifactType == "" then m else
                SetBoth(h, RegisterArtifact(m, step, a.artifactType, a.assetId), Artifacts, step, Id(m.clock));
    if a.assetId.None? then m2 else SetBoth(h, m2, Assets, step, Id(a.assetId.value))
  }

  datatype Persisted = Persisted(asset: nat, artifact: nat, url: string)

  function StoreObject(m: Machine, body: Bytes): Machine {
    Tick(Emit(m, ObjectStored(m.clock, body)))
  }

  function RegisterAsset(m: Machine, contentType: string, size: nat, objectKey: nat): Machine {
    Tick(Emit(m, AssetCreated(m.clock, contentType, size, objectKey)))
  }

  function RegisterArtifact(m: Machine, step: Step, kind: string, asset: Option<nat>): Machine {
    Tick(Emit(m, ArtifactCreated(m.clock, step.id, kind, asset)))
  }

  /** .jpg, .png, .gif, .mp4 or .webp */
  function ExtensionLength(contentType: string): (n: nat)
    ensures n <= 5
  {
    if contentType == "image/webp" then 5 else 4
  }

  /** The length of generated_NAME.EXT and rendered_NAME.EXT. */
  function FileNameLength(kind: string, contentType: string, step: Step): nat {
    (if kind == "image" then 10 else 9) + |step.name| + ExtensionLength(contentType)
  }

  /** Upload, asset row, artifact row, presigned URL: nothing is published before all four
      succeed. The asset row is only checked after the upload. */
  function Persist(h: Host, env: Services, m: Machine, step: Step, kind: string, contentType: string, body: Bytes): Outcome<Persisted> {
    match env.upload(m.clock)
    case Err(e) => Raised(Tick(m), CallFailed(e))
    case Ok(_) =>
      var m1 := StoreObject(m, body);
      if FileNameLength(kind, contentType, step) > MAX_NAME then Raised(m1, NameTooLong(h.complaint(Str(step.name))))
      else if |contentType| > MAX_NAME then Raised(m1, Unusable(h.complaint(Str(contentType))))
      else
      var m2 := RegisterAsset(m1, contentType, |body|, m.clock);
      var m3 := RegisterArtifact(m2, step, kind, Some(m1.clock));
      match env.presign(m3.clock)
      case Err(e) => Raised(Tick(m3), CallFailed(e))
      case Ok(url) => Done(Tick(Emit(m3, Presigned(m.clock, url))), Persisted(m1.clock, m2.clock, url))
  }

  /** The image bytes of a provider answer, fetched when only a URL came back. */
  function ImageBytes(env: Services, m: Machine, a: ImageAnswer): Outcome<Bytes> {
    if a.bytes != [] then Done(m, a.bytes)
    else if a.url == "" then Raised(m, EmptyImage)
    else
      match env.fetch(m.clock)
      case Err(e) => Raised(Tick(m), CallFailed(e))
      case Ok(bytes) => Done(Tick(m), bytes)
  }

  function ProductOf(h: Host, ref: string, p: Persisted, metadata: Value): Product {
    var v := Dict([Field(ref, Str(p.url)), Field("asset_id", Str(h.show(Id(p.asset)))),
                   Field("artifact_id", Str(h.show(Id(p.artifact)))), Field("metadata", metadata)]);
    Product(v, v)
  }

  /** The image stored and published. */
  function FinishImage(h: Host, env: Services, m: Machine, step: Step, contentType: string, body: Bytes, metadata: Value): Outcome<Product> {
    match Persist(h, env, m, step, "image", contentType, body)
    case Raised(m3, e) => Raised(m3, e)
    case Done(m3, p) =>
      var m4 := SetBoth(h, m3, Images, step, Str(p.url));
      var m5 := SetBoth(h, m4, Artifacts, step, Id(p.artifact));
      var m6 := SetBoth(h, m5, Assets, step, Id(p.asset));
      Done(m6, ProductOf(h, "image_url", p, metadata))
  }

  function ImageOperation(h: Host, env: Services, m: Machine, step: Step): Outcome<Product> {
    if !h.provider(Provider(step)) then Raised(m, UnknownProviderOf(h, step))
    else
      match Prompts.Build(h, m.context, ConfigOf(step), step.name)
      case Err(e) => Raised(m, PromptFault(e))
      case Ok(prompt) =>
        var m1 := Tick(Emit(m, Prompted(step.id, prompt.(system := None))));
        match env.image(m.clock)
        case Err(e) => Raised(m1, CallFailed(e))
        case Ok(a) =>
          match ImageBytes(env, m1, a)
          case Raised(m2, e) => Raised(m2, e)
          case Done(m2, bytes) =>
            FinishImage(h, env, m2, step, if a.mime != "" then a.mime else "image/png", bytes, a.metadata)
  }

  ghost predicate AssetIn(log: seq<Event>, asset: nat) {
    exists i :: 0 <= i < |log| && log[i].AssetCreated? && log[i].asset == asset
  }

  /** asset_repository.get_by_id: rows of this run or of earlier ones. */
  function HasAsset(env: Services, log: seq<Event>, asset: nat): (r: bool)
    ensures r <==> env.asset(asset) || AssetIn(log, asset)
  {
    env.asset(asset) || exists i :: 0 <= i < |log| && log[i].AssetCreated? && log[i].asset == asset
  }

  /** The input asset of a video step: a non-empty reference whose value is a UUID. */
  function InputAsset(h: Host, c: Context, step: Step): Result<nat, Fault> {
    match Get(ConfigOf(step), "input_asset")
    case Some(Str(text)) =>
      if text == "" then Err(NoInput)
      else
        (match ResolveToAny(h, c, text)
         case Err(token) => Err(InputUnresolved(token))
         case Ok(v) =>
           match h.uuid(h.show(v))
           case None => Err(InputNotUuid)
           case Some(id) => Ok(id))
    case _ => Err(NoInput)
  }

  /** The renderer's metadata, with the id of the asset that was rendered. */
  function RenderMetadata(h: Host, rendered: Config, source: nat): Value {
    Dict(With(rendered, "source_asset_id", Str(h.show(Id(source)))))
  }

  /** The rendered video stored and published. */
  function FinishVideo(h: Host, env: Services, m: Machine, step: Step, source: nat, r: RenderAnswer): Outcome<Product> {
    match Persist(h, env, m, step, "video", "video/mp4", r.video)
    case Raised(m3, e) => Raised(m3, e)
    case Done(m3, p) =>
      var m4 := SetBoth(h, m3, Videos, step, Str(p.url));
      var m5 := SetBoth(h, m4, Assets, step, Id(p.asset));
      var m6 := SetBoth(h, m5, Artifacts, step, Id(p.artifact));
      Done(m6, ProductOf(h, "video_url", p, RenderMetadata(h, r.metadata, source)))
  }

  function VideoOperation(h: Host, env: Services, m: Machine, step: Step): Outcome<Product> {
    match InputAsset(h, m.context, step)
    case Err(e) => Raised(m, e)
    case Ok(source) =>
      if !HasAsset(env, m.log, source) then Raised(m, NoInputAsset(h.show(Id(source))))
      else
        match env.download(m.clock)
        case Err(e) => Raised(Tick(m), CallFailed(e))
        case Ok(_) =>
          match env.render(m.clock + 1)
          case Err(e) => Raised(Tick(Tick(m)), CallFailed(e))
          case Ok(r) => FinishVideo(h, env, Tick(Tick(m)), step, source, r)
  }

  function Operate(h: Host, env: Services, m: Machine, step: Step): Outcome<Product> {
    var operation := Operation(step);
    if operation == Str("text_generation") then TextOperation(h, env, m, step)
    else if operation == Str("image_generation") then ImageOperation(h, env, m, step)
    else if operation == Str("video_render") then VideoOperation(h, env, m, step)
    else Raised(m, UnknownOperation(h.show(operation)))
  }

  /** What an iteration does between opening and closing its job. The step loop is stated
      for any such operation; Operations is the one the source has. */
  type Operator = (Machine, Step) -> Outcome<Product>

  function Operations(h: Host, env: Services): Operator {
    (m, step) => Operate(h, env, m, step)
  }

  /** Bind the loop variable, in the output namespace and as a variable. */
  function Bind(m: Machine, step: Step, item: Option<Value>): Machine {
    match item
    case None => m
    case Some(v) => Set(Set(m, Outputs, LoopVariable(step), v), Variables, LoopVariable(step), v)
  }

  function JobName(step: Step, item: Option<Value>): string {
    if item.Some? then step.name + " (Iteration)" else step.name
  }

  /** Create the job of one iteration and mark it running. */
  function OpenJob(m: Machine, step: Step, item: Option<Value>): Machine {
    var m1 := Tick(Emit(m, JobCreated(m.clock, step.id, JobName(step, item), ConfigOf(step), item)));
    Emit(m1, JobUpdated(m.clock, Running, None)).(job := Some(m.clock))
  }

  function CloseJob(m: Machine, job: nat, output: Value): Machine {
    var m1 := Emit(m, JobUpdated(job, Completed, Some(output)));
    m1.(executed := m1.executed + [job], successes := m1.successes + 1)
  }

  /** One pass of the item loop. */
  function Iteration(op: Operator, m: Machine, step: Step, item: Option<Value>): Outcome<Value> {
    var m1 := Bind(m, step, item);
    match op(OpenJob(m1, step, item), step)
    case Raised(m2, e) => Raised(m2, e)
    case Done(m2, p) => Done(CloseJob(m2, m1.clock, p.output), p.result)
  }

  function Iterations(op: Operator, m: Machine, step: Step, items: seq<Option<Value>>): Outcome<seq<Value>>
    decreases |items|
  {
    if items == [] then Done(m, [])
    else
      match Iteration(op, m, step, items[0])
      case Raised(m1, e) => Raised(m1, e)
      case Done(m1, v) =>
        match Iterations(op, m1, step, items[1..])
        case Raised(m2, e) => Raised(m2, e)
        case Done(m2, vs) => Done(m2, [v] + vs)
  }

  function Wrap(items: seq<Value>): (r: seq<Option<Value>>)
    ensures |r| == |items| && forall i :: 0 <= i < |r| ==> r[i] == Some(items[i])
  {
    seq(|items|, i requires 0 <= i < |items| => Some(items[i]))
  }

  /** The items of a visit: one unnamed item, or the list that the loop source denotes. */
  function Items(h: Host, c: Context, step: Step): Result<seq<Option<Value>>, Fault> {
    if !Looping(step) then Ok([None])
    else
      match ResolveToAny(h, c, step.loopSource)
      case Err(token) => Err(LoopUnresolved(token))
      case Ok(List(items)) => Ok(Wrap(items))
      case Ok(v) => Err(LoopNotAList(h.complaint(v)))
  }

  /** steps_map.get: position of the step with this id. */
  function IndexOf(steps: seq<Step>, id: nat): (r: Option<nat>)
    ensures r.Some? ==> r.value < |steps| && steps[r.value].id == id
    ensures r.None? ==> forall i :: 0 <= i < |steps| ==> steps[i].id != id
  {
    if steps == [] then None
    else
      var k := |steps| - 1;
      if steps[k].id == id then Some(k) else IndexOf(steps[..k], id)
  }

  /** Sequential fallback. */
  function FallThrough(steps: seq<Step>, i: nat): Option<nat> {
    if i + 1 < |steps| then Some(i + 1) else None
  }

  function Target(step: Step, taken: bool): Option<nat> {
    if taken then step.onTrue else step.onFalse
  }

  /** The branch chosen by an evaluated condition. */
  function Jump(h: Host, steps: seq<Step>, i: nat, taken: bool): (r: Result<Option<nat>, Fault>)
    requires i < |steps|
    ensures r.Ok? && r.value.Some? ==> r.value.value < |steps|
  {
    match Target(steps[i], taken)
    case None => Ok(FallThrough(steps, i))
    case Some(id) =>
      match IndexOf(steps, id)
      case None => Err(NoTarget(h.show(Id(id))))
      case Some(j) => Ok(Some(j))
  }

  /** Where control goes after a completed visit of step i. */
  function Next(h: Host, c: Context, steps: seq<Step>, i: nat): (r: Result<Option<nat>, Fault>)
    requires i < |steps|
    ensures r.Ok? && r.value.Some? ==> r.value.value < |steps|
  {
    var step := steps[i];
    if step.condition == "" then Ok(FallThrough(steps, i))
    else
      match Evaluate(h, c, step.condition)
      case Err(e) => Err(ConditionFault(e))
      case Ok(taken) => Jump(h, steps, i, taken)
  }

  function OpenVisit(m: Machine, step: Step): Machine {
    Emit(Emit(m.(job := None), StepStatus(step.id, Running)), History(Some(step.id), Running))
  }

  function CloseVisit(h: Host, m: Machine, step: Step, output: Value): Machine {
    Emit(Emit(SetBoth(h, m, Outputs, step, output), StepStatus(step.id, Completed)), History(Some(step.id), Completed))
  }

  /** iteration_results if step.loop_source else iteration_results[0] */
  function FinalOutput(step: Step, results: seq<Value>): Value
    requires Looping(step) || |results| > 0
  {
    if Looping(step) then List(results) else results[0]
  }

  lemma {:induction false} IterationsLength(op: Operator, m: Machine, step: Step, items: seq<Option<Value>>)
    ensures Iterations(op, m, step, items).Done? ==> |Iterations(op, m, step, items).value| == |items|
    decreases |items|
  {
    if items != [] && Iteration(op, m, step, items[0]).Done? {
      IterationsLength(op, Iteration(op, m, step, items[0]).m, step, items[1..]);
    }
  }

  /** The job name has a limit too; it is the same for every item of a visit. */
  predicate JobFits(step: Step, items: seq<Option<Value>>) {
    items != [] ==> |JobName(step, items[0])| <= MAX_NAME
  }

  /** The items and operations of a visit, up to the step's published output. */
  function Body(h: Host, op: Operator, m: Machine, step: Step): Outcome<Value> {
    match Items(h, m.context, step)
    case Err(e) => Raised(m, e)
    case Ok(items) =>
      if !JobFits(step, items) then Raised(Bind(m, step, items[0]), NameTooLong(h.complaint(Str(step.name))))
      else
      match Iterations(op, m, step, items)
      case Raised(m1, e) => Raised(m1, e)
      case Done(m1, results) =>
        IterationsLength(op, m, step, items);
        Done(m1, FinalOutput(step, results))
  }

  /** One visit of step i; the value is the index visited next. */
  function Visit(h: Host, op: Operator, steps: seq<Step>, m: Machine, i: nat): (r: Outcome<Option<nat>>)
    requires i < |steps|
    ensures r.Done? && r.value.Some? ==> r.value.value < |steps|
  {
    match Body(h, op, OpenVisit(m, steps[i]), steps[i])
    case Raised(m1, e) => Raised(m1, e)
    case Done(m1, output) =>
      var m2 := CloseVisit(h, m1, steps[i], output);
      match Next(h, m2.context, steps, i)
      case Err(e) => Raised(m2, e)
      case Ok(next) => Done(m2, next)
  }

  function Metrics(m: Machine): Machine {
    Emit(Emit(Emit(Emit(m, MetricRecorded("duration_ms", None)),
                   MetricRecorded("step_count", Some(|m.executed|))),
              MetricRecorded("success_count", Some(m.successes))),
         MetricRecorded("failure_count", Some(m.failures)))
  }

  /** Final status, history entry and metrics. */
  function End(m: Machine, status: Status, scope: Option<nat>): Machine {
    Metrics(Emit(Emit(m, ExecutionStatus(status)), History(scope, status)))
  }

  /** The handler up to the error row. */
  function FailStep(m: Machine, step: Step): Machine {
    Emit(m.(failures := m.failures + 1), StepStatus(step.id, Failed))
  }

  function ErrorRow(step: Step, error: Fault): (e: Event)
    ensures e.ErrorRecorded? && e.message == ErrorText(error)
  {
    ErrorRecorded(Some(step.id), "STEP_EXECUTION_FAILED", ErrorText(error))
  }

  /** The exception handler up to the job: the last job of the visit is overwritten whatever
      its status was. */
  function MarkFailed(m: Machine, step: Step, error: Fault): Machine {
    var m2 := Emit(FailStep(m, step), ErrorRow(step, error));
    if m2.job.Some? then Emit(m2, JobUpdated(m2.job.value, Failed, None)) else m2
  }

  function Fail(m: Machine, step: Step, error: Fault): Machine {
    End(MarkFailed(m, step, error), Failed, Some(step.id))
  }

  function Start(m: Machine): Machine {
    Emit(Emit(m, ExecutionStatus(Running)), History(None, Running))
  }

  function Finish(m: Machine): Machine {
    End(m, Completed, None)
  }

  /** A run, a run whose handler itself raised, or a run cut off at the head of the step loop. */
  datatype Run =
    | RunCompleted(m: Machine)
    | RunFailed(m: Machine, at: nat, error: Fault)
    | RunEscaped(m: Machine, at: nat, error: Fault)
    | CutOff(m: Machine, at: nat)

  /** The exception handler: it raises itself when the error row's message, or after it the
      history entry's, is too long. */
  function Handle(m: Machine, step: Step, k: nat, error: Fault): Run {
    if !RecordFits(error) then RunEscaped(FailStep(m, step), k, error)
    else if !HistoryFits(step, error) then RunEscaped(Emit(MarkFailed(m, step, error), ExecutionStatus(Failed)), k, error)
    else RunFailed(Fail(m, step, error), k, error)
  }

  /** The handler writes the record only. */
  lemma HandleKeeps(m: Machine, step: Step, k: nat, error: Fault)
    ensures var m2 := Handle(m, step, k, error).m; m2.context == m.context && m2.job == m.job
  {
    if !RecordFits(error) {
      assert FailStep(m, step).context == m.context && FailStep(m, step).job == m.job;
    } else if !HistoryFits(step, error) {
      MarkFailedKeeps(m, step, error);
    } else {
      FailKeeps(m, step, error);
    }
  }

  lemma FailKeeps(m: Machine, step: Step, error: Fault)
    ensures Fail(m, step, error).context == m.context && Fail(m, step, error).job == m.job
  {
    MarkFailedKeeps(m, step, error);
    EndKeeps(MarkFailed(m, step, error), Failed, Some(step.id));
  }

  lemma MarkFailedKeeps(m: Machine, step: Step, error: Fault)
    ensures var m2 := MarkFailed(m, step, error); m2.context == m.context && m2.job == m.job
  {
  }

  lemma EndKeeps(m: Machine, status: Status, scope: Option<nat>)
    ensures var m2 := End(m, status, scope); m2.context == m.context && m2.job == m.job
  {
  }

  /** A visit as seen by the step loop. The loop is stated for any visitor that stays
      inside the step list; VisitorOf is the one the source has. */
  type Visitor = (Machine, nat) -> Outcome<Option<nat>>

  ghost predicate Lands(visit: Visitor, n: nat) {
    forall m, i :: visit(m, i).Done? && visit(m, i).value.Some? ==> visit(m, i).value.value < n
  }

  function VisitorOf(h: Host, op: Operator, steps: seq<Step>): (visit: Visitor)
    ensures Lands(visit, |steps|)
  {
    (m: Machine, i: nat) => if i < |steps| then Visit(h, op, steps, m, i) else Done(m, None)
  }

  /** The step loop from index i for at most bound visits. */
  function Steps(steps: seq<Step>, visit: Visitor, m: Machine, i: Option<nat>, bound: nat): Run
    requires Lands(visit, |steps|) && (i.Some? ==> i.value < |steps|)
    decreases bound
  {
    match i
    case None => RunCompleted(Finish(m))
    case Some(k) =>
      if bound == 0 then CutOff(m, k)
      else
        match visit(m, k)
        case Raised(m1, e) => Handle(m1, steps[k], k, e)
        case Done(m1, next) => Steps(steps, visit, m1, next, bound - 1)
  }

  function FirstStep(steps: seq<Step>): (i: Option<nat>)
    ensures i.Some? ==> i.value < |steps|
  {
    if steps != [] then Some(0) else None
  }

  /** A run starts with an empty record and an empty context; rows of earlier runs are known
      through env.asset. */
  function Fresh(clock: nat): Machine {
    Machine([], clock, EMPTY, None, [], 0, 0)
  }

  /** A whole run on a validated workflow. */
  function Execute(steps: seq<Step>, visit: Visitor, clock: nat, bound: nat): Run
    requires Lands(visit, |steps|)
  {
    Steps(steps, visit, Start(Fresh(clock)), FirstStep(steps), bound)
  }
}
