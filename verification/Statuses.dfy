/** The statuses, history entries, error rows and jobs that a run writes, exactly and in order. */
module Statuses {
  import opened Values
  import opened Sequences
  import opened Workflows
  import opened Interpreter
  import opened OperationProperties
  import opened Accounting

  // ----- selecting events -----

  type Choose = Event -> bool

  predicate IsMark(e: Event) {
    e.ExecutionStatus? || e.StepStatus? || e.History? || e.ErrorRecorded?
  }

  predicate IsJob(e: Event) {
    e.JobCreated? || e.JobUpdated?
  }

  /** The chosen events of a log, in order. */
  function Select(log: seq<Event>, choose: Choose): seq<Event> {
    if log == [] then []
    else Select(log[..|log| - 1], choose) + (if choose(log[|log| - 1]) then [log[|log| - 1]] else [])
  }

  function Marks(log: seq<Event>): seq<Event> {
    Select(log, IsMark)
  }

  lemma SelectEmit(log: seq<Event>, e: Event, choose: Choose)
    ensures Select(log + [e], choose) == Select(log, choose) + (if choose(e) then [e] else [])
  {
    assert (log + [e])[..|log|] == log;
  }

  lemma MarksEmit(log: seq<Event>, e: Event)
    ensures Marks(log + [e]) == Marks(log) + (if IsMark(e) then [e] else [])
  {
    SelectEmit(log, e, IsMark);
  }

  /** m2 is m after events that are not chosen. */
  ghost predicate Silent(m: Machine, m2: Machine, choose: Choose) {
    m.log <= m2.log && forall i :: |m.log| <= i < |m2.log| ==> !choose(m2.log[i])
  }

  lemma {:induction false} SilentSelect(log: seq<Event>, log2: seq<Event>, choose: Choose)
    requires log <= log2 && forall i :: |log| <= i < |log2| ==> !choose(log2[i])
    ensures Select(log2, choose) == Select(log, choose)
    decreases |log2|
  {
    if |log2| > |log| {
      SilentSelect(log, log2[..|log2| - 1], choose);
      assert !choose(log2[|log2| - 1]);
    } else {
      assert log2 == log;
    }
  }

  /** No event of an operation, and no publication, is chosen. */
  ghost predicate Foreign(choose: Choose) {
    forall e :: choose(e) ==> !OperationEvent(e) && !e.Published?
  }

  lemma SilentSetBoth(h: Host, m: Machine, m2: Machine, space: Namespace, step: Step, v: Value, choose: Choose)
    requires Silent(m, m2, choose) && Foreign(choose)
    ensures Silent(m, SetBoth(h, m2, space, step, v), choose)
  {
  }

  lemma OperateSilent(h: Host, env: Services, m: Machine, step: Step, choose: Choose)
    requires Foreign(choose)
    ensures Silent(m, Operate(h, env, m, step).m, choose)
  {
    var keeps := x => Silent(m, x, choose);
    forall m2, space, v | keeps(m2)
      ensures keeps(SetBoth(h, m2, space, step, v))
    {
      SilentSetBoth(h, m, m2, space, step, v, choose);
    }
    OperateKeeps(h, env, m, step, keeps);
  }

  // ----- the job of an iteration -----

  /** The jobs of an iteration: created with the step's configuration and the item, started, and
      completed with the output of the operation unless that raises. */
  ghost predicate Jobbed(m: Machine, m2: Machine, step: Step, item: Option<Value>, product: Outcome<Product>) {
    var name := if item.Some? then step.name + " (Iteration)" else step.name;
    Select(m2.log, IsJob) == Select(m.log, IsJob)
      + [JobCreated(m.clock, step.id, name, ConfigOf(step), item), JobUpdated(m.clock, Running, None)]
      + (if product.Done? then [JobUpdated(m.clock, Completed, Some(product.value.output))] else [])
  }

  lemma OpenJobSelect(m: Machine, step: Step, item: Option<Value>)
    ensures var name := if item.Some? then step.name + " (Iteration)" else step.name;
            Select(OpenJob(m, step, item).log, IsJob) ==
              Select(m.log, IsJob) + [JobCreated(m.clock, step.id, name, ConfigOf(step), item), JobUpdated(m.clock, Running, None)]
  {
    var created := JobCreated(m.clock, step.id, JobName(step, item), ConfigOf(step), item);
    SelectEmit(m.log, created, IsJob);
    SelectEmit(m.log + [created], JobUpdated(m.clock, Running, None), IsJob);
    Associate(Select(m.log, IsJob), [created], [JobUpdated(m.clock, Running, None)]);
  }

  lemma IterationOfJob(op: Operator, m: Machine, step: Step, item: Option<Value>)
    requires forall x :: Silent(x, op(x, step).m, IsJob)
    ensures Jobbed(m, Iteration(op, m, step, item).m, step, item, op(OpenJob(Bind(m, step, item), step, item), step))
  {
    var m0 := Bind(m, step, item);
    var m1 := OpenJob(m0, step, item);
    var product := op(m1, step);
    SilentSelect(m.log, m0.log, IsJob);
    OpenJobSelect(m0, step, item);
    assert Silent(m1, product.m, IsJob);
    SilentSelect(m1.log, product.m.log, IsJob);
    if product.Done? {
      SelectEmit(product.m.log, JobUpdated(m.clock, Completed, Some(product.value.output)), IsJob);
    }
  }

  /** One pass of the item loop writes one job, and yields what its operation results in. */
  lemma IterationJob(h: Host, env: Services, m: Machine, step: Step, item: Option<Value>)
    ensures var op := Operations(h, env);
            var o := Iteration(op, m, step, item);
            var product := op(OpenJob(Bind(m, step, item), step, item), step);
            && (o.Done? <==> product.Done?) && (o.Done? ==> o.value == product.value.result)
            && Jobbed(m, o.m, step, item, product)
  {
    var op := Operations(h, env);
    forall x
      ensures Silent(x, op(x, step).m, IsJob)
    {
      OperateSilent(h, env, x, step, IsJob);
    }
    IterationOfJob(op, m, step, item);
  }

  // ----- statuses, history and errors -----

  ghost predicate Unmarked(m: Machine, m2: Machine) {
    Silent(m, m2, IsMark)
  }

  lemma UnmarkedMarks(log: seq<Event>, log2: seq<Event>)
    requires log <= log2 && forall i :: |log| <= i < |log2| ==> !IsMark(log2[i])
    ensures Marks(log2) == Marks(log)
  {
    SilentSelect(log, log2, IsMark);
  }

  lemma UnmarkedSetBoth(h: Host, m: Machine, m2: Machine, space: Namespace, step: Step, v: Value)
    requires Unmarked(m, m2)
    ensures Unmarked(m, SetBoth(h, m2, space, step, v))
  {
    SilentSetBoth(h, m, m2, space, step, v, IsMark);
  }

  /** An operator that writes no marks. */
  ghost predicate Markless(op: Operator) {
    forall m, step :: Unmarked(m, op(m, step).m)
  }

  lemma OperationsMarkless(h: Host, env: Services)
    ensures Markless(Operations(h, env))
  {
    forall m, step
      ensures Unmarked(m, Operations(h, env)(m, step).m)
    {
      OperateSilent(h, env, m, step, IsMark);
    }
  }

  lemma UnmarkedTrans(a: Machine, b: Machine, c: Machine)
    requires Unmarked(a, b) && Unmarked(b, c)
    ensures Unmarked(a, c)
  {
    forall i | |a.log| <= i < |c.log|
      ensures !IsMark(c.log[i])
    {
      if i < |b.log| {
        assert c.log[i] == b.log[i];
      }
    }
  }

  lemma IterationUnmarked(op: Operator, m: Machine, step: Step, item: Option<Value>)
    requires Markless(op)
    ensures Unmarked(m, Iteration(op, m, step, item).m)
  {
    var m1 := OpenJob(Bind(m, step, item), step, item);
    assert Unmarked(m, m1);
    var o := op(m1, step);
    assert Unmarked(m1, o.m);
    UnmarkedTrans(m, m1, o.m);
  }

  lemma {:induction false} IterationsUnmarked(op: Operator, m: Machine, step: Step, items: seq<Option<Value>>)
    requires Markless(op)
    ensures Unmarked(m, Iterations(op, m, step, items).m)
    decreases |items|
  {
    if items != [] {
      IterationUnmarked(op, m, step, items[0]);
      var o := Iteration(op, m, step, items[0]);
      if o.Done? {
        IterationsUnmarked(op, o.m, step, items[1..]);
        UnmarkedTrans(m, o.m, Iterations(op, o.m, step, items[1..]).m);
      }
    }
  }

  lemma BodyUnmarked(h: Host, op: Operator, m: Machine, step: Step)
    requires Markless(op)
    ensures Unmarked(m, Body(h, op, m, step).m)
  {
    var items := Items(h, m.context, step);
    if items.Ok? && JobFits(step, items.value) {
      IterationsUnmarked(op, m, step, items.value);
    }
  }

  /** A step that starts, and one that completes. */
  function Opening(id: nat): seq<Event> {
    [StepStatus(id, Running), History(Some(id), Running)]
  }

  function Closing(id: nat): seq<Event> {
    [StepStatus(id, Completed), History(Some(id), Completed)]
  }

  /** A visit starts its step and completes it, unless a fault comes before the end of its jobs. */
  ghost predicate VisitMarked(m: Machine, o: Outcome<Option<nat>>, id: nat) {
    Marks(o.m.log) == Marks(m.log) + Opening(id) + (if o.Done? || AfterJob(o.error) then Closing(id) else [])
  }

  lemma MarkTwice(m: Machine, e1: Event, e2: Event)
    requires IsMark(e1) && IsMark(e2)
    ensures Marks(Emit(Emit(m, e1), e2).log) == Marks(m.log) + [e1, e2]
  {
    MarksEmit(m.log, e1);
    MarksEmit(m.log + [e1], e2);
  }

  lemma CloseMarks(h: Host, m: Machine, step: Step, output: Value)
    ensures Marks(CloseVisit(h, m, step, output).log) == Marks(m.log) + Closing(step.id)
  {
    var m1 := SetBoth(h, m, Outputs, step, output);
    UnmarkedSetBoth(h, m, m, Outputs, step, output);
    UnmarkedMarks(m.log, m1.log);
    MarkTwice(m1, StepStatus(step.id, Completed), History(Some(step.id), Completed));
  }

  lemma BodyMarks(h: Host, op: Operator, m: Machine, step: Step)
    requires Markless(op) && Timely(op)
    ensures var o := Body(h, op, OpenVisit(m, step), step);
            Marks(o.m.log) == Marks(m.log) + Opening(step.id) && (o.Raised? ==> !AfterJob(o.error))
  {
    var m1 := OpenVisit(m, step);
    MarkTwice(m.(job := None), StepStatus(step.id, Running), History(Some(step.id), Running));
    BodyUnmarked(h, op, m1, step);
    UnmarkedMarks(m1.log, Body(h, op, m1, step).m.log);
    BodyTimely(h, op, m1, step);
  }

  lemma BodyTimely(h: Host, op: Operator, m: Machine, step: Step)
    requires Timely(op)
    ensures var o := Body(h, op, m, step); o.Raised? ==> !AfterJob(o.error)
  {
    var items := Items(h, m.context, step);
    if items.Ok? && JobFits(step, items.value) {
      IterationsTimely(op, m, step, items.value);
    }
  }

  lemma {:induction false} IterationsTimely(op: Operator, m: Machine, step: Step, items: seq<Option<Value>>)
    requires Timely(op)
    ensures var o := Iterations(op, m, step, items); o.Raised? ==> !AfterJob(o.error)
    decreases |items|
  {
    if items != [] {
      var m1 := Bind(m, step, items[0]);
      assert op(OpenJob(m1, step, items[0]), step).Raised? ==> !AfterJob(op(OpenJob(m1, step, items[0]), step).error);
      var o := Iteration(op, m, step, items[0]);
      if o.Done? {
        IterationsTimely(op, o.m, step, items[1..]);
      }
    }
  }

  lemma VisitMarks(h: Host, op: Operator, steps: seq<Step>, m: Machine, i: nat)
    requires i < |steps| && Markless(op) && Timely(op)
    ensures VisitMarked(m, Visit(h, op, steps, m, i), steps[i].id)
  {
    var step := steps[i];
    BodyMarks(h, op, m, step);
    var o := Body(h, op, OpenVisit(m, step), step);
    if o.Done? {
      CloseMarks(h, o.m, step, o.value);
    }
  }

  // ----- whole runs -----

  ghost predicate Marked(visit: Visitor, steps: seq<Step>) {
    forall m, i: nat :: i < |steps| ==> VisitMarked(m, visit(m, i), steps[i].id)
  }

  /** The marks of completed visits, one after the other. */
  function TrailMarks(steps: seq<Step>, trail: seq<nat>): seq<Event>
    requires forall k :: 0 <= k < |trail| ==> trail[k] < |steps|
  {
    if trail == [] then []
    else Opening(steps[trail[0]].id) + Closing(steps[trail[0]].id) + TrailMarks(steps, trail[1..])
  }

  /** The error row of a failed step. */
  function ErrorOf(step: Step, error: Fault): Event {
    ErrorRecorded(Some(step.id), "STEP_EXECUTION_FAILED",
                  if Message(error) == "" then "Unknown error occurred during step execution" else Message(error))
  }

  /** What the handler writes for a failed step: its status, the error row, the execution's
      status and the history entry. A text that is longer than the row takes stops it after the
      first, and one that is longer than the entry takes before the last. */
  function FailureMarks(step: Step, error: Fault): seq<Event> {
    if |Message(error)| > 1000 then [StepStatus(step.id, Failed)]
    else if |"Step "| + |step.name| + |" failed: "| + |Message(error)| > 500 then
      [StepStatus(step.id, Failed), ErrorOf(step, error), ExecutionStatus(Failed)]
    else [StepStatus(step.id, Failed), ErrorOf(step, error), ExecutionStatus(Failed), History(Some(step.id), Failed)]
  }

  lemma TextsFit(step: Step, error: Fault)
    ensures RecordFits(error) <==> |Message(error)| <= 1000
    ensures HistoryFits(step, error) <==> |"Step "| + |step.name| + |" failed: "| + |Message(error)| <= 500
  {
  }

  lemma ErrorRowIs(step: Step, error: Fault)
    ensures ErrorRow(step, error) == ErrorOf(step, error)
  {
  }

  lemma MarkFailedMarks(m: Machine, step: Step, error: Fault)
    ensures Marks(MarkFailed(m, step, error).log) == Marks(m.log) + [StepStatus(step.id, Failed), ErrorOf(step, error)]
  {
    ErrorRowIs(step, error);
    var m1 := m.(failures := m.failures + 1);
    MarkTwice(m1, StepStatus(step.id, Failed), ErrorRow(step, error));
    if m.job.Some? {
      MarksEmit(Emit(FailStep(m, step), ErrorRow(step, error)).log, JobUpdated(m.job.value, Failed, None));
    }
  }

  lemma EndMarks(m: Machine, status: Status, scope: Option<nat>)
    ensures Marks(End(m, status, scope).log) == Marks(m.log) + [ExecutionStatus(status), History(scope, status)]
  {
    MarkTwice(m, ExecutionStatus(status), History(scope, status));
    var m2 := Emit(Emit(m, ExecutionStatus(status)), History(scope, status));
    UnmarkedMarks(m2.log, Metrics(m2).log);
  }

  lemma EscapeMarks(m: Machine, step: Step, error: Fault)
    ensures Marks(Emit(MarkFailed(m, step, error), ExecutionStatus(Failed)).log) ==
              Marks(m.log) + [StepStatus(step.id, Failed), ErrorOf(step, error), ExecutionStatus(Failed)]
  {
    MarkFailedMarks(m, step, error);
    MarksEmit(MarkFailed(m, step, error).log, ExecutionStatus(Failed));
    Associate(Marks(m.log), [StepStatus(step.id, Failed), ErrorOf(step, error)], [ExecutionStatus(Failed)]);
  }

  lemma FailMarks(m: Machine, step: Step, error: Fault)
    ensures Marks(Fail(m, step, error).log) ==
              Marks(m.log) + [StepStatus(step.id, Failed), ErrorOf(step, error), ExecutionStatus(Failed), History(Some(step.id), Failed)]
  {
    MarkFailedMarks(m, step, error);
    EndMarks(MarkFailed(m, step, error), Failed, Some(step.id));
    Associate(Marks(m.log), [StepStatus(step.id, Failed), ErrorOf(step, error)], [ExecutionStatus(Failed), History(Some(step.id), Failed)]);
  }

  lemma HandleMarks(m: Machine, step: Step, k: nat, error: Fault)
    ensures Marks(Handle(m, step, k, error).m.log) == Marks(m.log) + FailureMarks(step, error)
  {
    TextsFit(step, error);
    if !RecordFits(error) {
      MarksEmit(m.log, StepStatus(step.id, Failed));
    } else if !HistoryFits(step, error) {
      EscapeMarks(m, step, error);
    } else {
      FailMarks(m, step, error);
    }
  }

  /** The marks of a run from some point on: those of its completed visits, then those of its end. */
  ghost predicate RunMarked(steps: seq<Step>, start: seq<Event>, trail: seq<nat>, run: Run)
    requires forall k :: 0 <= k < |trail| ==> trail[k] < |steps|
  {
    match run
    case RunCompleted(m) => Marks(m.log) == start + TrailMarks(steps, trail) + [ExecutionStatus(Completed), History(None, Completed)]
    case CutOff(m, _) => Marks(m.log) == start + TrailMarks(steps, trail)
    case RunFailed(m, at, error) => FailedMarked(steps, start, trail, m, at, error)
    case RunEscaped(m, at, error) => FailedMarked(steps, start, trail, m, at, error)
  }

  ghost predicate FailedMarked(steps: seq<Step>, start: seq<Event>, trail: seq<nat>, m: Machine, at: nat, error: Fault)
    requires forall k :: 0 <= k < |trail| ==> trail[k] < |steps|
  {
    && trail != [] && trail[|trail| - 1] == at && at < |steps|
    && var step := steps[at];
    Marks(m.log) == start + TrailMarks(steps, trail[..|trail| - 1]) + Opening(step.id)
                    + (if AfterJob(error) then Closing(step.id) else []) + FailureMarks(step, error)
  }

  lemma {:induction false} StepsMarks(steps: seq<Step>, visit: Visitor, m: Machine, i: Option<nat>, bound: nat)
    requires Lands(visit, |steps|) && Marked(visit, steps) && (i.Some? ==> i.value < |steps|)
    ensures forall k :: 0 <= k < |Trail(visit, m, i, bound)| ==> Trail(visit, m, i, bound)[k] < |steps|
    ensures RunMarked(steps, Marks(m.log), Trail(visit, m, i, bound), Steps(steps, visit, m, i, bound))
    decreases bound
  {
    if i.None? {
      EndMarks(m, Completed, None);
      assert Marks(m.log) + [] == Marks(m.log);
    } else if bound == 0 {
      assert Marks(m.log) + [] == Marks(m.log);
    } else {
      var k := i.value;
      var o := visit(m, k);
      assert VisitMarked(m, o, steps[k].id);
      if o.Done? {
        StepsMarks(steps, visit, o.m, o.value, bound - 1);
        MarksBefore(steps, Marks(m.log), k, Trail(visit, o.m, o.value, bound - 1), Steps(steps, visit, o.m, o.value, bound - 1));
      } else {
        HandleMarks(o.m, steps[k], k, o.error);
        assert [k][..0] == [] && Marks(m.log) + [] == Marks(m.log);
      }
    }
  }

  /** One more visit in front. */
  lemma MarksBefore(steps: seq<Step>, start: seq<Event>, k: nat, rest: seq<nat>, run: Run)
    requires k < |steps| && forall j :: 0 <= j < |rest| ==> rest[j] < |steps|
    requires RunMarked(steps, start + Opening(steps[k].id) + Closing(steps[k].id), rest, run)
    ensures RunMarked(steps, start, [k] + rest, run)
  {
    var id := steps[k].id;
    var trail := [k] + rest;
    assert trail[1..] == rest;
    Associate(start, Opening(id) + Closing(id), TrailMarks(steps, rest));
    Associate(start, Opening(id), Closing(id));
    if run.RunFailed? || run.RunEscaped? {
      var front := rest[..|rest| - 1];
      assert trail[..|trail| - 1] == [k] + front;
      assert ([k] + front)[1..] == front;
      Associate(start, Opening(id) + Closing(id), TrailMarks(steps, front));
    }
  }

  /** The statuses, history entries and error rows of every run: the execution starts; every
      completed visit starts and completes its step; then the execution completes, or the step of
      the last visit and with it the execution fails. Nothing else is written of these. */
  lemma RunsMark(h: Host, env: Services, steps: seq<Step>, clock: nat, bound: nat)
    ensures var visit := VisitorOf(h, Operations(h, env), steps);
            var trail := Trail(visit, Start(Fresh(clock)), FirstStep(steps), bound);
            && (forall k :: 0 <= k < |trail| ==> trail[k] < |steps|)
            && RunMarked(steps, [ExecutionStatus(Running), History(None, Running)], trail, Execute(steps, visit, clock, bound))
  {
    var op := Operations(h, env);
    var visit := VisitorOf(h, op, steps);
    OperationsMarkless(h, env);
    OperationsTimely(h, env);
    forall m, i: nat | i < |steps|
      ensures VisitMarked(m, visit(m, i), steps[i].id)
    {
      VisitMarks(h, op, steps, m, i);
    }
    MarkTwice(Fresh(clock), ExecutionStatus(Running), History(None, Running));
    assert Marks([]) + [ExecutionStatus(Running), History(None, Running)] == [ExecutionStatus(Running), History(None, Running)];
    StepsMarks(steps, visit, Start(Fresh(clock)), FirstStep(steps), bound);
  }
}
