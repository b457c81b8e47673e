/** WorkflowRuntime of apps/api/workflow/runtime.py, statement by statement. Every method is
    proved to make exactly the writes of the recursive interpreter. */
module Runtime {
  import opened Values
  import opened Contexts
  import Conditions
  import Prompts
  import opened Workflows
  import I = Interpreter
  import V = Validator

  /** What run returns, or that it raises: in its validation guard, or in the handler of a
      failed step. StillRunning is a run that was cut off after the given number of visits. */
  datatype RunResult =
    | Invalid(errors: seq<V.ValidationError>)
    | NotFound
    | RunDone
    | RunError(error: I.Fault)
    | GuardRaised
    | HandlerRaised(error: I.Fault)
    | StillRunning

  /** run either opens an execution of its own or is handed the id of one. */
  datatype Execution = OpenNew | Given(found: bool)

  /** The text of the error row that the guard writes: a fixed start, then the list of errors. */
  type Describer = seq<V.ValidationError> -> string

  /** ProbeVisit and Probe always hold: they only mark the terms at which Visits and Wired
      are to be instantiated. */
  ghost predicate ProbeVisit(m: I.Machine, i: nat) {
    true
  }

  ghost predicate Probe(m: I.Machine, step: Step) {
    true
  }

  class WorkflowRuntime {
    const h: Host
    const env: Services
    const describe: Describer
    /** What the interpreter does for an operation; the constructor fixes it to I.Operations. */
    ghost const op: I.Operator
    var log: seq<Event>
    var clock: nat
    var context: WorkflowContext
    var job: Option<nat>
    var executedJobs: seq<nat>
    var successCount: nat
    var failureCount: nat

    constructor (h: Host, env: Services, describe: Describer, clock: nat)
      ensures this.h == h && this.env == env && this.describe == describe && this.clock == clock
      ensures op == I.Operations(h, env) && Wired() && fresh(context)
    {
      op := I.Operations(h, env);
      this.h, this.env, this.describe, this.log, this.clock := h, env, describe, [], clock;
      this.context := new WorkflowContext();
      job, executedJobs, successCount, failureCount := None, [], 0, 0;
    }

    ghost function M(): I.Machine
      reads this, context
    {
      I.Machine(log, clock, context.View(), job, executedJobs, successCount, failureCount)
    }

    /** op is the operation of the source, said so that it is only unfolded where it is probed. */
    ghost predicate Wired() {
      forall m: I.Machine, step: Step {:trigger Probe(m, step)} :: Probe(m, step) ==> op(m, step) == I.Operate(h, env, m, step)
    }

    /** visit is what this runtime does with a step of steps. */
    ghost predicate Visits(visit: I.Visitor, steps: seq<Step>) {
      forall m: I.Machine, i: nat {:trigger ProbeVisit(m, i)} ::
        ProbeVisit(m, i) && i < |steps| ==> visit(m, i) == I.Visit(h, op, steps, m, i)
    }

    /** The outcome of a call, as the interpreter states it. */
    ghost function Result<T>(r: Values.Result<T, I.Fault>): I.Outcome<T>
      reads this, context
    {
      if r.Ok? then I.Done(M(), r.value) else I.Raised(M(), r.error)
    }

    method Emit(e: Event)
      modifies this`log
      ensures M() == I.Emit(old(M()), e)
    {
      log := log + [e];
    }

    /** The number of the next external call or fresh identifier. */
    method Ticket() returns (n: nat)
      modifies this`clock
      ensures n == old(clock) && M() == I.Tick(old(M()))
    {
      n := clock;
      clock := clock + 1;
    }

    method Publish(space: Namespace, key: string, v: Value)
      modifies this`log, context
      ensures M() == I.Set(old(M()), space, key, v)
    {
      match space {
        case Outputs => context.SetStepOutput(key, v);
        case Artifacts => context.SetStepArtifact(key, v);
        case Assets => context.SetStepAsset(key, v);
        case Images => context.SetStepImage(key, v);
        case Videos => context.SetStepVideo(key, v);
        case Variables => context.SetVariable(key, v);
      }
      Emit(Published(space, key, v));
    }

    method PublishBoth(space: Namespace, step: Step, v: Value)
      modifies this`log, context
      ensures M() == I.SetBoth(h, old(M()), space, step, v)
    {
      Publish(space, Key(h, step), v);
      Publish(space, step.name, v);
    }

    method TextGeneration(step: Step) returns (r: Values.Result<I.Product, I.Fault>)
      modifies this`log, this`clock, context
      ensures I.TextOperation(h, env, old(M()), step) == Result(r)
    {
      if !h.provider(I.Provider(step)) {
        return Err(I.UnknownProviderOf(h, step));
      }
      var composed := Prompts.Build(h, context.View(), ConfigOf(step), step.name);
      if composed.Err? {
        return Err(I.PromptFault(composed.error));
      }
      Emit(Prompted(step.id, composed.value));
      var call := Ticket();
      var answer := env.text(call);
      if answer.Err? {
        return Err(I.CallFailed(answer.error));
      }
      var a := answer.value;
      if |a.artifactType| > I.MAX_KIND {
        return Err(I.Unusable(h.complaint(Str(a.artifactType))));
      }
      if a.artifactType != "" {
        var artifact := RecordArtifact(step, a.artifactType, a.assetId);
        PublishBoth(Artifacts, step, Id(artifact));
      }
      if a.assetId.Some? {
        PublishBoth(Assets, step, Id(a.assetId.value));
      }
      return Ok(I.Product(a.content, Dict([Field("result", a.content), Field("metadata", a.metadata)])));
    }

    method RecordAsset(contentType: string, size: nat, objectKey: nat) returns (asset: nat)
      modifies this`log, this`clock
      ensures asset == old(clock) && M() == I.RegisterAsset(old(M()), contentType, size, objectKey)
    {
      Emit(AssetCreated(clock, contentType, size, objectKey));
      asset := Ticket();
    }

    method RecordArtifact(step: Step, kind: string, asset: Option<nat>) returns (artifact: nat)
      modifies this`log, this`clock
      ensures artifact == old(clock) && M() == I.RegisterArtifact(old(M()), step, kind, asset)
    {
      Emit(ArtifactCreated(clock, step.id, kind, asset));
      artifact := Ticket();
    }

    method Upload(body: Bytes) returns (r: Values.Result<nat, I.Fault>)
      modifies this`log, this`clock
      ensures r.Ok? <==> env.upload(old(clock)).Ok?
      ensures r.Ok? ==> r.value == old(clock) && M() == I.StoreObject(old(M()), body)
      ensures r.Err? ==> r.error == I.CallFailed(env.upload(old(clock)).error) && M() == I.Tick(old(M()))
    {
      var objectKey := Ticket();
      var stored := env.upload(objectKey);
      if stored.Err? {
        return Err(I.CallFailed(stored.error));
      }
      Emit(ObjectStored(objectKey, body));
      return Ok(objectKey);
    }

    /** Upload, register the asset, register the artifact, presign. */
    method Persist(step: Step, kind: string, contentType: string, body: Bytes)
      returns (r: Values.Result<I.Persisted, I.Fault>)
      modifies this`log, this`clock
      ensures I.Persist(h, env, old(M()), step, kind, contentType, body) == Result(r)
    {
      var objectKey := Upload(body);
      if objectKey.Err? {
        return Err(objectKey.error);
      }
      if I.FileNameLength(kind, contentType, step) > I.MAX_NAME {
        return Err(I.NameTooLong(h.complaint(Str(step.name))));
      }
      if |contentType| > I.MAX_NAME {
        return Err(I.Unusable(h.complaint(Str(contentType))));
      }
      var asset := RecordAsset(contentType, |body|, objectKey.value);
      var artifact := RecordArtifact(step, kind, Some(asset));
      var call := Ticket();
      var url := env.presign(call);
      if url.Err? {
        return Err(I.CallFailed(url.error));
      }
      Emit(Presigned(objectKey.value, url.value));
      return Ok(I.Persisted(asset, artifact, url.value));
    }

    method RetrieveImage(a: ImageAnswer) returns (r: Values.Result<Bytes, I.Fault>)
      modifies this`clock
      ensures I.ImageBytes(env, old(M()), a) == Result(r)
    {
      if a.url == "" && a.bytes == [] {
        return Err(I.EmptyImage);
      }
      if a.bytes != [] {
        return Ok(a.bytes);
      }
      var call := Ticket();
      var fetched := env.fetch(call);
      if fetched.Err? {
        return Err(I.CallFailed(fetched.error));
      }
      return Ok(fetched.value);
    }

    method ImageGeneration(step: Step) returns (r: Values.Result<I.Product, I.Fault>)
      modifies this`log, this`clock, context
      ensures I.ImageOperation(h, env, old(M()), step) == Result(r)
    {
      if !h.provider(I.Provider(step)) {
        return Err(I.UnknownProviderOf(h, step));
      }
      var composed := Prompts.Build(h, context.View(), ConfigOf(step), step.name);
      if composed.Err? {
        return Err(I.PromptFault(composed.error));
      }
      Emit(Prompted(step.id, composed.value.(system := None)));
      var call := Ticket();
      var answer := env.image(call);
      if answer.Err? {
        return Err(I.CallFailed(answer.error));
      }
      var a := answer.value;
      var image := RetrieveImage(a);
      if image.Err? {
        return Err(image.error);
      }
      r := FinishImage(step, if a.mime != "" then a.mime else "image/png", image.value, a.metadata);
    }

    method FinishImage(step: Step, contentType: string, body: Bytes, metadata: Value) returns (r: Values.Result<I.Product, I.Fault>)
      modifies this`log, this`clock, context
      ensures I.FinishImage(h, env, old(M()), step, contentType, body, metadata) == Result(r)
    {
      var persisted := Persist(step, "image", contentType, body);
      if persisted.Err? {
        return Err(persisted.error);
      }
      var p := persisted.value;
      PublishBoth(Images, step, Str(p.url));
      PublishBoth(Artifacts, step, Id(p.artifact));
      PublishBoth(Assets, step, Id(p.asset));
      return Ok(I.ProductOf(h, "image_url", p, metadata));
    }

    method VideoRender(step: Step) returns (r: Values.Result<I.Product, I.Fault>)
      modifies this`log, this`clock, context
      ensures I.VideoOperation(h, env, old(M()), step) == Result(r)
    {
      var input := I.InputAsset(h, context.View(), step);
      if input.Err? {
        return Err(input.error);
      }
      if !I.HasAsset(env, log, input.value) {
        return Err(I.NoInputAsset(h.show(Id(input.value))));
      }
      var call := Ticket();
      var stored := env.download(call);
      if stored.Err? {
        return Err(I.CallFailed(stored.error));
      }
      call := Ticket();
      var rendered := env.render(call);
      if rendered.Err? {
        return Err(I.CallFailed(rendered.error));
      }
      r := FinishVideo(step, input.value, rendered.value);
    }

    method FinishVideo(step: Step, source: nat, rendered: RenderAnswer) returns (r: Values.Result<I.Product, I.Fault>)
      modifies this`log, this`clock, context
      ensures I.FinishVideo(h, env, old(M()), step, source, rendered) == Result(r)
    {
      var persisted := Persist(step, "video", "video/mp4", rendered.video);
      if persisted.Err? {
        return Err(persisted.error);
      }
      var p := persisted.value;
      PublishBoth(Videos, step, Str(p.url));
      PublishBoth(Assets, step, Id(p.asset));
      PublishBoth(Artifacts, step, Id(p.artifact));
      return Ok(I.ProductOf(h, "video_url", p, I.RenderMetadata(h, rendered.metadata, source)));
    }

    method Operate(step: Step) returns (r: Values.Result<I.Product, I.Fault>)
      requires Wired()
      modifies this`log, this`clock, context
      ensures op(old(M()), step) == Result(r)
    {
      assert Probe(M(), step);
      var operation := I.Operation(step);
      if operation == Str("text_generation") {
        r := TextGeneration(step);
      } else if operation == Str("image_generation") {
        r := ImageGeneration(step);
      } else if operation == Str("video_render") {
        r := VideoRender(step);
      } else {
        r := Err(I.UnknownOperation(h.show(operation)));
      }
    }

    method BindItem(step: Step, item: Option<Value>)
      modifies this`log, context
      ensures M() == I.Bind(old(M()), step, item)
    {
      if item.Some? {
        Publish(Outputs, LoopVariable(step), item.value);
        Publish(Variables, LoopVariable(step), item.value);
      }
    }

    method CreateJob(step: Step, item: Option<Value>) returns (created: nat)
      modifies this`log, this`clock, this`job
      ensures created == old(clock)
      ensures M() == I.OpenJob(old(M()), step, item)
    {
      Emit(JobCreated(clock, step.id, I.JobName(step, item), ConfigOf(step), item));
      created := Ticket();
      job := Some(created);
      Emit(JobUpdated(created, Running, None));
    }

    method CompleteJob(completed: nat, output: Value)
      modifies this`log, this`executedJobs, this`successCount
      ensures M() == I.CloseJob(old(M()), completed, output)
    {
      Emit(JobUpdated(completed, Completed, Some(output)));
      executedJobs := executedJobs + [completed];
      successCount := successCount + 1;
    }

    /** One pass of the item loop: bind, create the job, operate, complete the job. */
    method RunIteration(step: Step, item: Option<Value>) returns (r: Values.Result<Value, I.Fault>)
      requires Wired()
      modifies this`log, this`clock, this`job, this`executedJobs, this`successCount, context
      ensures I.Iteration(op, old(M()), step, item) == Result(r)
    {
      BindItem(step, item);
      var created := CreateJob(step, item);
      var product := Operate(step);
      if product.Err? {
        return Err(product.error);
      }
      CompleteJob(created, product.value.output);
      return Ok(product.value.result);
    }

    /** The items of the step and the loop over them, up to the step's final output. */
    method RunItems(step: Step) returns (r: Values.Result<Value, I.Fault>)
      requires Wired()
      modifies this`log, this`clock, this`job, this`executedJobs, this`successCount, context
      ensures I.Body(h, op, old(M()), step) == Result(r)
    {
      var items := I.Items(h, context.View(), step);
      if items.Err? {
        return Err(items.error);
      }
      if items.value != [] && |I.JobName(step, items.value[0])| > I.MAX_NAME {
        BindItem(step, items.value[0]);
        return Err(I.NameTooLong(h.complaint(Str(step.name))));
      }
      ghost var start := M();
      var results: seq<Value> := [];
      assert items.value[0..] == items.value;
      AfterNothing(I.Iterations(op, start, step, items.value));
      for n := 0 to |items.value|
        invariant I.Iterations(op, start, step, items.value) == After(results, I.Iterations(op, M(), step, items.value[n..]))
        invariant |results| == n
      {
        var result := RunIteration(step, items.value[n]);
        assert items.value[n..][1..] == items.value[n + 1..];
        if result.Err? {
          return Err(result.error);
        }
        AfterAfter(results, result.value, I.Iterations(op, M(), step, items.value[n + 1..]));
        results := results + [result.value];
      }
      assert results + [] == results;
      return Ok(I.FinalOutput(step, results));
    }

    /** One visit of the step loop: everything inside the try block. */
    method ExecuteStep(steps: seq<Step>, i: nat, ghost visit: I.Visitor) returns (r: Values.Result<Option<nat>, I.Fault>)
      requires i < |steps| && Wired() && Visits(visit, steps)
      modifies this`log, this`clock, this`job, this`executedJobs, this`successCount, context
      ensures visit(old(M()), i) == Result(r)
    {
      assert ProbeVisit(M(), i);
      var step := steps[i];
      job := None;
      Emit(StepStatus(step.id, Running));
      Emit(History(Some(step.id), Running));
      var output := RunItems(step);
      if output.Err? {
        return Err(output.error);
      }
      PublishBoth(Outputs, step, output.value);
      Emit(StepStatus(step.id, Completed));
      Emit(History(Some(step.id), Completed));
      var next: Option<nat> := None;
      if step.condition != "" {
        var taken := Conditions.Evaluate(h, context.View(), step.condition);
        if taken.Err? {
          return Err(I.ConditionFault(taken.error));
        }
        var target := if taken.value then step.onTrue else step.onFalse;
        if target.Some? {
          next := I.IndexOf(steps, target.value);
          if next.None? {
            return Err(I.NoTarget(h.show(Id(target.value))));
          }
        }
      }
      if next.None? && i + 1 < |steps| {
        next := Some(i + 1);
      }
      return Ok(next);
    }

    method RecordMetrics()
      modifies this`log
      ensures M() == I.Metrics(old(M()))
    {
      Emit(MetricRecorded("duration_ms", None));
      Emit(MetricRecorded("step_count", Some(|executedJobs|)));
      Emit(MetricRecorded("success_count", Some(successCount)));
      Emit(MetricRecorded("failure_count", Some(failureCount)));
    }

    /** The row is only built when its message has at most so many characters. */
    method RecordError(row: Event) returns (fits: bool)
      requires row.ErrorRecorded?
      modifies this`log
      ensures fits <==> |row.message| <= I.MAX_ERROR
      ensures M() == if fits then I.Emit(old(M()), row) else old(M())
    {
      fits := |row.message| <= I.MAX_ERROR;
      if fits {
        Emit(row);
      }
    }

    method EndRun(status: Status, scope: Option<nat>)
      modifies this`log
      ensures M() == I.End(old(M()), status, scope)
    {
      Emit(ExecutionStatus(status));
      Emit(History(scope, status));
      RecordMetrics();
    }

    /** The handler up to the job, unless the error row does not take the text. */
    method MarkFailed(step: Step, error: I.Fault) returns (recorded: bool)
      modifies this`log, this`failureCount
      ensures recorded <==> I.RecordFits(error)
      ensures M() == if recorded then I.MarkFailed(old(M()), step, error) else I.FailStep(old(M()), step)
    {
      failureCount := failureCount + 1;
      Emit(StepStatus(step.id, Failed));
      recorded := RecordFault(step, error);
      if recorded && job.Some? {
        Emit(JobUpdated(job.value, Failed, None));
      }
    }

    method RecordFault(step: Step, error: I.Fault) returns (recorded: bool)
      modifies this`log
      ensures recorded <==> I.RecordFits(error)
      ensures M() == if recorded then I.Emit(old(M()), I.ErrorRow(step, error)) else old(M())
    {
      recorded := RecordError(I.ErrorRow(step, error));
    }

    /** The exception handler around a step. It raises itself when the error row or the history
        entry does not take the text. */
    method HandleFailure(step: Step, k: nat, error: I.Fault) returns (r: RunResult)
      modifies this`log, this`failureCount
      ensures Reports(I.Handle(old(M()), step, k, error), r)
    {
      var recorded := MarkFailed(step, error);
      if !recorded {
        return HandlerRaised(error);
      }
      Emit(ExecutionStatus(Failed));
      if |I.HistoryText(step, error)| > I.MAX_HISTORY {
        return HandlerRaised(error);
      }
      Emit(History(Some(step.id), Failed));
      RecordMetrics();
      return RunError(error);
    }

    /** The step loop, from the first history entry to the result. */
    method RunSteps(steps: seq<Step>, bound: nat, ghost visit: I.Visitor) returns (r: RunResult)
      requires Wired() && Visits(visit, steps) && I.Lands(visit, |steps|)
      modifies this`log, this`clock, this`job, this`executedJobs, this`successCount, this`failureCount, context
      ensures Reports(I.Steps(steps, visit, I.Start(old(M())), I.FirstStep(steps), bound), r)
    {
      Emit(ExecutionStatus(Running));
      Emit(History(None, Running));
      var current: Option<nat> := I.FirstStep(steps);
      var remaining := bound;
      ghost var whole := I.Steps(steps, visit, M(), current, remaining);
      while current.Some?
        invariant current.Some? ==> current.value < |steps|
        invariant whole == I.Steps(steps, visit, M(), current, remaining)
        decreases remaining
      {
        if remaining == 0 {
          return StillRunning;
        }
        var i := current.value;
        var next := ExecuteStep(steps, i, visit);
        if next.Err? {
          r := HandleFailure(steps[i], i, next.error);
          return;
        }
        current := next.value;
        remaining := remaining - 1;
      }
      EndRun(Completed, None);
      return RunDone;
    }

    /** The returned result and the state left behind are those of a run of the interpreter. */
    ghost predicate Reports(run: I.Run, r: RunResult)
      reads this, context
    {
      match run
      case RunCompleted(m) => r == RunDone && M() == m
      case RunFailed(m, _, error) => r == RunError(error) && M() == m
      case RunEscaped(m, _, error) => r == HandlerRaised(error) && M() == m
      case CutOff(m, _) => r == StillRunning && M() == m
    }

    /** The error row that cannot be written raises. */
    method Reject(errors: seq<V.ValidationError>, execution: Execution) returns (r: RunResult)
      modifies this`log
      ensures r == if Recordable(errors, execution) then Invalid(errors) else GuardRaised
      ensures log == old(log) + Rejection(describe, r, execution)
    {
      if execution.Given? {
        if !execution.found {
          return GuardRaised;
        }
        var recorded := RecordError(ErrorRecorded(None, "VALIDATION_FAILED", describe(errors)));
        if !recorded {
          return GuardRaised;
        }
        Emit(ExecutionStatus(Failed));
      }
      return Invalid(errors);
    }

    /** No error row is called for, or one can be written: its execution exists and takes a
        message of that length. */
    predicate Recordable(errors: seq<V.ValidationError>, execution: Execution) {
      execution.Given? ==> execution.found && |describe(errors)| <= I.MAX_ERROR
    }

    /** The validation guard and the lookup of a given execution. Nothing is left behind when
        its error row takes no message of that length, or has no execution to belong to. */
    method Guard(steps: seq<Step>, execution: Execution) returns (rejected: Option<RunResult>)
      modifies this`log
      ensures rejected.None? <==> V.WellFormed(h, steps) && execution != Given(false)
      ensures rejected.None? ==> log == old(log)
      ensures rejected.Some? ==> Rejects(rejected.value, steps, execution) && log == old(log) + Rejection(describe, rejected.value, execution)
    {
      var valid, errors := V.Validate(h, steps);
      if !valid {
        var r := Reject(errors, execution);
        return Some(r);
      }
      return if execution == Given(false) then Some(NotFound) else None;
    }

    /** An invalid workflow is reported with its errors unless an execution was given whose
        error row cannot be written. */
    ghost predicate Rejects(r: RunResult, steps: seq<Step>, execution: Execution) {
      if V.WellFormed(h, steps) then r == NotFound && execution == Given(false)
      else r == if Recordable(V.Errors(h, steps), execution) then Invalid(V.Errors(h, steps)) else GuardRaised
    }

    /** WorkflowRuntime.run, for at most bound step visits: a workflow that is rejected leaves
        only the rejection, any other is executed as the interpreter says. */
    method Run(steps: seq<Step>, execution: Execution, bound: nat, ghost visit: I.Visitor) returns (r: RunResult)
      requires Wired() && Visits(visit, steps) && I.Lands(visit, |steps|)
      modifies this
      ensures if V.WellFormed(h, steps) && execution != Given(false)
              then Reports(I.Execute(steps, visit, old(clock), bound), r)
              else Rejects(r, steps, execution) && log == Rejection(describe, r, execution)
    {
      log := [];
      var rejected := Guard(steps, execution);
      if rejected.Some? {
        return rejected.value;
      }
      context := new WorkflowContext();
      job, executedJobs, successCount, failureCount := None, [], 0, 0;
      r := RunSteps(steps, bound, visit);
    }
  }

  /** What a rejected workflow leaves on an execution that already exists. */
  function Rejection(describe: Describer, r: RunResult, execution: Execution): seq<Event> {
    if r.Invalid? && execution.Given?
    then [ErrorRecorded(None, "VALIDATION_FAILED", describe(r.errors)), ExecutionStatus(Failed)]
    else []
  }

  /** A workflow on the services: the interpreter with the source's own operations. */
  method RunWorkflow(h: Host, env: Services, describe: Describer, steps: seq<Step>, execution: Execution, clock: nat, bound: nat)
    returns (runtime: WorkflowRuntime, r: RunResult)
    ensures fresh(runtime) && runtime.h == h && runtime.describe == describe
    ensures if V.WellFormed(h, steps) && execution != Given(false)
            then runtime.Reports(I.Execute(steps, I.VisitorOf(h, I.Operations(h, env), steps), clock, bound), r)
            else runtime.Rejects(r, steps, execution) && runtime.log == Rejection(describe, r, execution)
  {
    runtime := new WorkflowRuntime(h, env, describe, clock);
    ghost var visit := I.VisitorOf(h, I.Operations(h, env), steps);
    VisitorVisits(runtime, steps);
    r := runtime.Run(steps, execution, bound, visit);
  }

  lemma VisitorVisits(runtime: WorkflowRuntime, steps: seq<Step>)
    ensures runtime.Visits(I.VisitorOf(runtime.h, runtime.op, steps), steps)
  {
  }

  ghost function After(results: seq<Value>, o: I.Outcome<seq<Value>>): I.Outcome<seq<Value>> {
    match o
    case Raised(m, e) => I.Raised(m, e)
    case Done(m, vs) => I.Done(m, results + vs)
  }

  lemma AfterNothing(o: I.Outcome<seq<Value>>)
    ensures After([], o) == o
  {
    if o.Done? {
      assert [] + o.value == o.value;
    }
  }

  lemma AfterAfter(results: seq<Value>, v: Value, o: I.Outcome<seq<Value>>)
    ensures After(results, After([v], o)) == After(results + [v], o)
  {
    if o.Done? {
      assert results + ([v] + o.value) == results + [v] + o.value;
    }
  }
}
