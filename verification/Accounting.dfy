/** Job accounting, history and metrics of whole runs. */
module Accounting {
  import opened Values
  import opened Sequences
  import opened Contexts
  import Prompts
  import opened Workflows
  import opened Interpreter
  import opened OperationProperties

  // ----- reading the record -----

  /** The jobs created, in order. */
  function Jobs(log: seq<Event>): seq<nat> {
    if log == [] then []
    else Jobs(log[..|log| - 1]) + (if log[|log| - 1].JobCreated? then [log[|log| - 1].job] else [])
  }

  /** The status a job row ends up with. */
  function JobNow(log: seq<Event>, job: nat): Option<Status> {
    if log == [] then None
    else
      var e := log[|log| - 1];
      if e.JobUpdated? && e.job == job then Some(e.now)
      else if e.JobCreated? && e.job == job then Some(Pending)
      else JobNow(log[..|log| - 1], job)
  }

  /** The status the execution row ends up with. */
  function ExecutionNow(log: seq<Event>): Option<Status> {
    if log == [] then None
    else if log[|log| - 1].ExecutionStatus? then Some(log[|log| - 1].execution)
    else ExecutionNow(log[..|log| - 1])
  }

  function Histories(log: seq<Event>): nat {
    if log == [] then 0
    else Histories(log[..|log| - 1]) + (if log[|log| - 1].History? then 1 else 0)
  }

  /** The last recorded value of a metric. */
  function MetricOf(log: seq<Event>, metric: string): Option<nat> {
    if log == [] then None
    else if log[|log| - 1].MetricRecorded? && log[|log| - 1].metric == metric then log[|log| - 1].amount
    else MetricOf(log[..|log| - 1], metric)
  }

  /** Events that none of the readings above sees. */
  predicate Quiet(e: Event) {
    OperationEvent(e) || e.Published? || e.StepStatus?
  }

  lemma ReadEmit(log: seq<Event>, e: Event)
    ensures Jobs(log + [e]) == Jobs(log) + (if e.JobCreated? then [e.job] else [])
    ensures Histories(log + [e]) == Histories(log) + (if e.History? then 1 else 0)
    ensures ExecutionNow(log + [e]) == if e.ExecutionStatus? then Some(e.execution) else ExecutionNow(log)
  {
    assert (log + [e])[..|log|] == log;
  }

  lemma JobNowEmit(log: seq<Event>, e: Event, job: nat)
    ensures JobNow(log + [e], job) ==
              if e.JobUpdated? && e.job == job then Some(e.now)
              else if e.JobCreated? && e.job == job then Some(Pending)
              else JobNow(log, job)
  {
    assert (log + [e])[..|log|] == log;
  }

  lemma MetricEmit(log: seq<Event>, e: Event, metric: string)
    ensures MetricOf(log + [e], metric) == if e.MetricRecorded? && e.metric == metric then e.amount else MetricOf(log, metric)
  {
    assert (log + [e])[..|log|] == log;
  }

  lemma {:induction false} ReadQuiet(log: seq<Event>, log2: seq<Event>)
    requires log <= log2 && forall i :: |log| <= i < |log2| ==> Quiet(log2[i])
    ensures Jobs(log2) == Jobs(log) && Histories(log2) == Histories(log) && ExecutionNow(log2) == ExecutionNow(log)
    ensures forall job :: JobNow(log2, job) == JobNow(log, job)
    decreases |log2|
  {
    if |log2| > |log| {
      var front := log2[..|log2| - 1];
      ReadQuiet(log, front);
      assert Quiet(log2[|log2| - 1]);
    } else {
      assert log2 == log;
    }
  }

  // ----- operations -----

  /** m2 is m after quiet events only: no job, counter or status is touched. */
  ghost predicate Framed(m: Machine, m2: Machine) {
    && m2.job == m.job && m2.executed == m.executed && m2.successes == m.successes && m2.failures == m.failures
    && m.clock <= m2.clock && m.log <= m2.log
    && forall i :: |m.log| <= i < |m2.log| ==> Quiet(m2.log[i])
  }

  lemma FramedSetBoth(h: Host, m: Machine, m2: Machine, space: Namespace, step: Step, v: Value)
    requires Framed(m, m2)
    ensures Framed(m, SetBoth(h, m2, space, step, v))
  {
  }

  /** An operator that leaves jobs, counters and statuses alone. */
  ghost predicate Tame(op: Operator) {
    forall m, step :: Framed(m, op(m, step).m)
  }

  lemma OperationsTame(h: Host, env: Services)
    ensures Tame(Operations(h, env))
  {
    forall m, step
      ensures Framed(m, Operations(h, env)(m, step).m)
    {
      OperateFramed(h, env, m, step);
    }
  }

  lemma OperateFramed(h: Host, env: Services, m: Machine, step: Step)
    ensures Framed(m, Operate(h, env, m, step).m)
  {
    var keeps := x => Framed(m, x);
    forall m2, space, v | keeps(m2)
      ensures keeps(SetBoth(h, m2, space, step, v))
    {
      FramedSetBoth(h, m, m2, space, step, v);
    }
    OperateKeeps(h, env, m, step, keeps);
  }

  // ----- the books between two visits, and inside a failing one -----

  ghost predicate AllNow(log: seq<Event>, jobs: seq<nat>, status: Status) {
    forall j :: j in jobs ==> JobNow(log, j) == Some(status)
  }

  ghost predicate Old(jobs: seq<nat>, clock: nat) {
    forall j :: j in jobs ==> j < clock
  }

  /** No metric has been recorded yet. */
  ghost predicate NoMetrics(log: seq<Event>) {
    forall i :: 0 <= i < |log| ==> !log[i].MetricRecorded?
  }

  ghost predicate NoErrors(log: seq<Event>) {
    forall i :: 0 <= i < |log| ==> !log[i].ErrorRecorded?
  }

  /** The jobs of the run are exactly the executed ones, all completed, and counted. */
  ghost predicate Balanced(m: Machine) {
    && Jobs(m.log) == m.executed && m.successes == |m.executed| && m.failures == 0
    && AllNow(m.log, m.executed, Completed) && Old(m.executed, m.clock) && Distinct(m.executed)
    && NoMetrics(m.log) && NoErrors(m.log)
  }

  /** One job more is open. */
  ghost predicate Struck(m: Machine) {
    && m.job.Some? && Jobs(m.log) == m.executed + [m.job.value] && m.successes == |m.executed| && m.failures == 0
    && AllNow(m.log, m.executed, Completed) && Old(m.executed, m.job.value) && Distinct(m.executed)
    && JobNow(m.log, m.job.value) == Some(Running) && m.job.value < m.clock
    && NoMetrics(m.log) && NoErrors(m.log)
  }

  /** The job variable names the last job of the run, if it names any. */
  ghost predicate LastJob(m: Machine) {
    m.job.Some? ==> m.executed != [] && m.job.value == m.executed[|m.executed| - 1]
  }

  lemma BalancedQuiet(m: Machine, m2: Machine)
    requires Balanced(m) && Framed(m, m2)
    ensures Balanced(m2) && Histories(m2.log) == Histories(m.log) && ExecutionNow(m2.log) == ExecutionNow(m.log)
  {
    ReadQuiet(m.log, m2.log);
  }

  lemma StruckQuiet(m: Machine, m2: Machine)
    requires Struck(m) && Framed(m, m2)
    ensures Struck(m2) && Histories(m2.log) == Histories(m.log) && ExecutionNow(m2.log) == ExecutionNow(m.log)
  {
    ReadQuiet(m.log, m2.log);
  }

  lemma OpenJobStrikes(m: Machine, step: Step, item: Option<Value>)
    requires Balanced(m)
    ensures var m2 := OpenJob(m, step, item);
            Struck(m2) && m2.executed == m.executed && m2.job == Some(m.clock)
            && Histories(m2.log) == Histories(m.log) && ExecutionNow(m2.log) == ExecutionNow(m.log)
  {
    var e1 := JobCreated(m.clock, step.id, JobName(step, item), ConfigOf(step), item);
    var e2 := JobUpdated(m.clock, Running, None);
    ReadEmit(m.log, e1);
    ReadEmit(m.log + [e1], e2);
    forall j
      ensures JobNow(m.log + [e1] + [e2], j) == if j == m.clock then Some(Running) else JobNow(m.log, j)
    {
      JobNowEmit(m.log, e1, j);
      JobNowEmit(m.log + [e1], e2, j);
    }
  }

  lemma CloseJobBalances(m: Machine, output: Value)
    requires Struck(m)
    ensures var m2 := CloseJob(m, m.job.value, output);
            Balanced(m2) && LastJob(m2) && |m2.executed| == |m.executed| + 1
            && Histories(m2.log) == Histories(m.log) && ExecutionNow(m2.log) == ExecutionNow(m.log)
  {
    var e := JobUpdated(m.job.value, Completed, Some(output));
    ReadEmit(m.log, e);
    forall j
      ensures JobNow(m.log + [e], j) == if j == m.job.value then Some(Completed) else JobNow(m.log, j)
    {
      JobNowEmit(m.log, e, j);
    }
  }

  /** The faults that can come after the last job of a visit was completed. */
  predicate AfterJob(f: Fault) {
    f.ConditionFault? || f.NoTarget?
  }

  /** An operator that never raises them. */
  ghost predicate Timely(op: Operator) {
    forall m, step :: op(m, step).Raised? ==> !AfterJob(op(m, step).error)
  }

  lemma PersistTimely(h: Host, env: Services, m: Machine, step: Step, kind: string, contentType: string, body: Bytes)
    ensures var o := Persist(h, env, m, step, kind, contentType, body); o.Raised? ==> !AfterJob(o.error)
  {
  }

  lemma TextTimely(h: Host, env: Services, m: Machine, step: Step)
    ensures var o := TextOperation(h, env, m, step); o.Raised? ==> !AfterJob(o.error)
  {
  }

  lemma ImageTimely(h: Host, env: Services, m: Machine, step: Step)
    ensures var o := ImageOperation(h, env, m, step); o.Raised? ==> !AfterJob(o.error)
  {
    var prompt := Prompts.Build(h, m.context, ConfigOf(step), step.name);
    if h.provider(Provider(step)) && prompt.Ok? && env.image(m.clock).Ok? {
      var a := env.image(m.clock).value;
      var image := ImageBytes(env, Tick(Emit(m, Prompted(step.id, prompt.value.(system := None)))), a);
      if image.Done? {
        PersistTimely(h, env, image.m, step, "image", if a.mime != "" then a.mime else "image/png", image.value);
      }
    }
  }

  lemma VideoTimely(h: Host, env: Services, m: Machine, step: Step)
    ensures var o := VideoOperation(h, env, m, step); o.Raised? ==> !AfterJob(o.error)
  {
    var rendered := env.render(Tick(m).clock);
    if rendered.Ok? {
      PersistTimely(h, env, Tick(Tick(m)), step, "video", "video/mp4", rendered.value.video);
    }
  }

  lemma OperationsTimely(h: Host, env: Services)
    ensures Timely(Operations(h, env))
  {
    forall m, step
      ensures Operations(h, env)(m, step).Raised? ==> !AfterJob(Operations(h, env)(m, step).error)
    {
      OperateTimely(h, env, m, step);
    }
  }

  lemma OperateTimely(h: Host, env: Services, m: Machine, step: Step)
    ensures var o := Operate(h, env, m, step); o.Raised? ==> !AfterJob(o.error)
  {
    var operation := Operation(step);
    if operation == Str("text_generation") {
      TextTimely(h, env, m, step);
    } else if operation == Str("image_generation") {
      ImageTimely(h, env, m, step);
    } else if operation == Str("video_render") {
      VideoTimely(h, env, m, step);
    }
  }

  /** What an iteration, and likewise a whole item loop, does to the books. */
  ghost predicate Booked<T>(m: Machine, o: Outcome<T>, count: nat) {
    && Histories(o.m.log) == Histories(m.log) && ExecutionNow(o.m.log) == ExecutionNow(m.log)
    && (o.Done? ==> Balanced(o.m) && LastJob(o.m) && |o.m.executed| == |m.executed| + count)
    && (o.Raised? ==> Struck(o.m) && !AfterJob(o.error))
  }

  lemma IterationBooked(op: Operator, m: Machine, step: Step, item: Option<Value>)
    requires Tame(op) && Timely(op) && Balanced(m)
    ensures Booked(m, Iteration(op, m, step, item), 1)
  {
    var m1 := Bind(m, step, item);
    BindBooked(m, step, item);
    OpenJobStrikes(m1, step, item);
    var m2 := OpenJob(m1, step, item);
    var o := op(m2, step);
    assert Framed(m2, o.m);
    StruckQuiet(m2, o.m);
    if o.Done? {
      CloseJobBalances(o.m, o.value.output);
    }
  }

  lemma {:induction false} IterationsBooked(op: Operator, m: Machine, step: Step, items: seq<Option<Value>>)
    requires Tame(op) && Timely(op) && Balanced(m) && LastJob(m)
    ensures Booked(m, Iterations(op, m, step, items), |items|)
    decreases |items|
  {
    if items != [] {
      IterationBooked(op, m, step, items[0]);
      var o := Iteration(op, m, step, items[0]);
      if o.Done? {
        IterationsBooked(op, o.m, step, items[1..]);
      }
    }
  }

  /** The machine at the moment an exception leaves a visit. */
  ghost predicate Failing(m: Machine) {
    Struck(m) || (Balanced(m) && LastJob(m))
  }

  /** A fault after the jobs finds them all completed; any other finds the last one running, or
      comes before the visit's first. */
  ghost predicate FailingBy(m: Machine, f: Fault) {
    if AfterJob(f) then Balanced(m) && LastJob(m) else Struck(m) || (Balanced(m) && m.job.None?)
  }

  /** A step's new status and its history entry. */
  lemma StepStatusBooked(m: Machine, step: Step, status: Status)
    requires Balanced(m)
    ensures var m2 := Emit(Emit(m, StepStatus(step.id, status)), History(Some(step.id), status));
            Balanced(m2) && m2.job == m.job && m2.executed == m.executed
            && Histories(m2.log) == Histories(m.log) + 1 && ExecutionNow(m2.log) == ExecutionNow(m.log)
  {
    var e1, e2 := StepStatus(step.id, status), History(Some(step.id), status);
    ReadEmit(m.log, e1);
    ReadEmit(m.log + [e1], e2);
    forall j
      ensures JobNow(m.log + [e1] + [e2], j) == JobNow(m.log, j)
    {
      JobNowEmit(m.log, e1, j);
      JobNowEmit(m.log + [e1], e2, j);
    }
  }

  lemma OpenVisitBooked(m: Machine, step: Step)
    requires Balanced(m)
    ensures var m2 := OpenVisit(m, step);
            Balanced(m2) && m2.job.None? && m2.executed == m.executed
            && Histories(m2.log) == Histories(m.log) + 1 && ExecutionNow(m2.log) == ExecutionNow(m.log)
  {
    StepStatusBooked(m.(job := None), step, Running);
  }

  lemma CloseVisitBooked(h: Host, m: Machine, step: Step, output: Value)
    requires Balanced(m) && LastJob(m)
    ensures var m2 := CloseVisit(h, m, step, output);
            Balanced(m2) && LastJob(m2) && m2.executed == m.executed
            && Histories(m2.log) == Histories(m.log) + 1 && ExecutionNow(m2.log) == ExecutionNow(m.log)
  {
    var m1 := SetBoth(h, m, Outputs, step, output);
    FramedSetBoth(h, m, m, Outputs, step, output);
    BalancedQuiet(m, m1);
    StepStatusBooked(m1, step, Completed);
  }

  /** The number of items of a visit, once its loop source has resolved. */
  function ItemCount(h: Host, m: Machine, step: Step): nat {
    match Items(h, m.context, step)
    case Err(_) => 0
    case Ok(items) => |items|
  }

  type Counter = (Machine, nat) -> nat

  function ItemCounter(h: Host, steps: seq<Step>): Counter {
    (m: Machine, i: nat) => if i < |steps| then ItemCount(h, OpenVisit(m, steps[i]), steps[i]) else 0
  }

  /** Per visit: two history entries when it completes, one or two when it does not, and
      one completed job per item. */
  ghost predicate VisitBooked(m: Machine, o: Outcome<Option<nat>>, items: nat) {
    && ExecutionNow(o.m.log) == ExecutionNow(m.log)
    && (o.Done? ==> Balanced(o.m) && Histories(o.m.log) == Histories(m.log) + 2 && |Jobs(o.m.log)| == |Jobs(m.log)| + items)
    && (o.Raised? ==> FailingBy(o.m, o.error) && Histories(m.log) + 1 <= Histories(o.m.log) <= Histories(m.log) + 2)
  }

  /** One visit keeps the books. */
  lemma VisitBooks(h: Host, op: Operator, steps: seq<Step>, m: Machine, i: nat)
    requires i < |steps| && Tame(op) && Timely(op) && Balanced(m)
    ensures VisitBooked(m, Visit(h, op, steps, m, i), ItemCounter(h, steps)(m, i))
  {
    var step := steps[i];
    OpenVisitBooked(m, step);
    var m1 := OpenVisit(m, step);
    BodyBooked(h, op, m1, step);
    var o := Body(h, op, m1, step);
    if o.Done? {
      CloseVisitBooked(h, o.m, step, o.value);
      NextBooked(h, steps, m, i, CloseVisit(h, o.m, step, o.value), ItemCount(h, m1, step));
    }
  }

  /** The visit has closed with m2: choosing the next step changes nothing, but may raise. */
  lemma NextBooked(h: Host, steps: seq<Step>, m: Machine, i: nat, m2: Machine, items: nat)
    requires i < |steps| && Balanced(m) && Balanced(m2) && LastJob(m2) && |m2.executed| == |m.executed| + items
    requires Histories(m2.log) == Histories(m.log) + 2 && ExecutionNow(m2.log) == ExecutionNow(m.log)
    ensures match Next(h, m2.context, steps, i)
            case Err(e) => VisitBooked(m, Raised(m2, e), items)
            case Ok(next) => VisitBooked(m, Done(m2, next), items)
  {
    var next := Next(h, m2.context, steps, i);
    if next.Err? {
      assert AfterJob(next.error);
    }
  }

  lemma BodyBooked(h: Host, op: Operator, m: Machine, step: Step)
    requires Tame(op) && Timely(op) && Balanced(m) && m.job.None?
    ensures BodyBooks(m, Body(h, op, m, step), ItemCount(h, m, step))
  {
    var items := Items(h, m.context, step);
    if items.Ok? {
      if JobFits(step, items.value) {
        IterationsBooked(op, m, step, items.value);
      } else {
        BindBooked(m, step, items.value[0]);
      }
    }
  }

  ghost predicate BodyBooks(m: Machine, o: Outcome<Value>, items: nat) {
    && Histories(o.m.log) == Histories(m.log) && ExecutionNow(o.m.log) == ExecutionNow(m.log)
    && (o.Done? ==> Balanced(o.m) && LastJob(o.m) && |o.m.executed| == |m.executed| + items)
    && (o.Raised? ==> !AfterJob(o.error) && FailingBy(o.m, o.error))
  }

  lemma BindBooked(m: Machine, step: Step, item: Option<Value>)
    requires Balanced(m)
    ensures var m1 := Bind(m, step, item);
            Balanced(m1) && m1.job == m.job && Histories(m1.log) == Histories(m.log) && ExecutionNow(m1.log) == ExecutionNow(m.log)
  {
    BalancedQuiet(m, Bind(m, step, item));
  }

  // ----- whole runs -----

  ghost predicate Accounts(visit: Visitor, count: Counter, n: nat) {
    forall m, i: nat :: i < n && Balanced(m) ==> VisitBooked(m, visit(m, i), count(m, i))
  }

  lemma VisitorAccounts(h: Host, env: Services, steps: seq<Step>)
    ensures Accounts(VisitorOf(h, Operations(h, env), steps), ItemCounter(h, steps), |steps|)
  {
    var op := Operations(h, env);
    OperationsTame(h, env);
    OperationsTimely(h, env);
    forall m, i: nat | i < |steps| && Balanced(m)
      ensures VisitBooked(m, VisitorOf(h, op, steps)(m, i), ItemCounter(h, steps)(m, i))
    {
      VisitBooks(h, op, steps, m, i);
    }
  }

  /** The step indices that a run visits, in order. */
  function Trail(visit: Visitor, m: Machine, i: Option<nat>, bound: nat): seq<nat>
    decreases bound
  {
    if i.None? || bound == 0 then []
    else
      [i.value] + (match visit(m, i.value)
                   case Raised(_, _) => []
                   case Done(m1, next) => Trail(visit, m1, next, bound - 1))
  }

  /** The jobs that the completed visits of a run create: the sum of their item counts. */
  function Planned(visit: Visitor, count: Counter, m: Machine, i: Option<nat>, bound: nat): nat
    decreases bound
  {
    if i.None? || bound == 0 then 0
    else
      match visit(m, i.value)
      case Raised(_, _) => 0
      case Done(m1, next) =>
        count(m, i.value) + Planned(visit, count, m1, next, bound - 1)
  }

  /** The closed books of a completed run. */
  ghost predicate ClosedCompleted(m: Machine, jobs: nat, histories: nat) {
    && AllNow(m.log, Jobs(m.log), Completed) && Distinct(Jobs(m.log))
    && |Jobs(m.log)| == jobs && Histories(m.log) == histories
    && MetricOf(m.log, "step_count") == MetricOf(m.log, "success_count") == Some(jobs)
    && MetricOf(m.log, "failure_count") == Some(0)
    && ExecutionNow(m.log) == Some(Completed)
  }

  /** The closed books of a failed run: every job but possibly the last is completed, the
      last is failed when the failing visit had created one, and the success count may be
      one short of the jobs, but never more. */
  ghost predicate ClosedFailed(m: Machine) {
    var jobs := Jobs(m.log);
    && Distinct(jobs)
    && (forall k :: 0 <= k < |jobs| - 1 ==> JobNow(m.log, jobs[k]) == Some(Completed))
    && (jobs != [] ==> JobNow(m.log, jobs[|jobs| - 1]) in {Some(Completed), Some(Failed)})
    && (m.job.Some? ==> jobs != [] && m.job.value == jobs[|jobs| - 1] && JobNow(m.log, m.job.value) == Some(Failed))
    && MetricOf(m.log, "step_count") == MetricOf(m.log, "success_count") == Some(m.successes)
    && MetricOf(m.log, "failure_count") == Some(1)
    && m.successes <= |jobs| <= m.successes + 1
    && ExecutionNow(m.log) == Some(Failed)
  }

  lemma MetricsRead(m: Machine)
    ensures var m2 := Metrics(m);
            && Jobs(m2.log) == Jobs(m.log) && Histories(m2.log) == Histories(m.log) && ExecutionNow(m2.log) == ExecutionNow(m.log)
            && (forall j :: JobNow(m2.log, j) == JobNow(m.log, j))
            && MetricOf(m2.log, "step_count") == Some(|m.executed|)
            && MetricOf(m2.log, "success_count") == Some(m.successes)
            && MetricOf(m2.log, "failure_count") == Some(m.failures)
  {
    var e0, e1, e2, e3 := MetricRecorded("duration_ms", None), MetricRecorded("step_count", Some(|m.executed|)),
                          MetricRecorded("success_count", Some(m.successes)), MetricRecorded("failure_count", Some(m.failures));
    var l0 := m.log + [e0];
    var l1 := l0 + [e1];
    var l2 := l1 + [e2];
    ReadEmit(m.log, e0);
    ReadEmit(l0, e1);
    ReadEmit(l1, e2);
    ReadEmit(l2, e3);
    forall j
      ensures JobNow(l2 + [e3], j) == JobNow(m.log, j)
    {
      JobNowEmit(m.log, e0, j);
      JobNowEmit(l0, e1, j);
      JobNowEmit(l1, e2, j);
      JobNowEmit(l2, e3, j);
    }
    MetricEmit(l0, e1, "step_count");
    MetricEmit(l1, e2, "step_count");
    MetricEmit(l2, e3, "step_count");
    MetricEmit(l1, e2, "success_count");
    MetricEmit(l2, e3, "success_count");
    MetricEmit(l2, e3, "failure_count");
  }

  lemma FinishCloses(m: Machine)
    requires Balanced(m)
    ensures ClosedCompleted(Finish(m), |Jobs(m.log)|, Histories(m.log) + 1)
  {
    EndReads(m, Completed, None);
  }

  lemma MarkFailedReads(m: Machine, step: Step, error: Fault)
    ensures var m3 := MarkFailed(m, step, error);
            && Jobs(m3.log) == Jobs(m.log) && Histories(m3.log) == Histories(m.log)
            && m3.job == m.job && m3.executed == m.executed && m3.successes == m.successes && m3.failures == m.failures + 1
            && (forall j: nat :: JobNow(m3.log, j) == if m.job == Some(j) then Some(Failed) else JobNow(m.log, j))
  {
    var log1 := m.log + [StepStatus(step.id, Failed)];
    var row := ErrorRow(step, error);
    var log2 := log1 + [row];
    ReadQuiet(m.log, log1);
    ReadEmit(log1, row);
    forall j
      ensures JobNow(log2, j) == JobNow(m.log, j)
    {
      JobNowEmit(log1, row, j);
    }
    if m.job.Some? {
      var e := JobUpdated(m.job.value, Failed, None);
      ReadEmit(log2, e);
      forall j: nat
        ensures JobNow(log2 + [e], j) == if m.job == Some(j) then Some(Failed) else JobNow(m.log, j)
      {
        JobNowEmit(log2, e, j);
      }
    }
  }

  /** Recording the final status, its history entry and the metrics. */
  lemma EndReads(m: Machine, status: Status, scope: Option<nat>)
    ensures var m2 := End(m, status, scope);
            && Jobs(m2.log) == Jobs(m.log) && Histories(m2.log) == Histories(m.log) + 1 && ExecutionNow(m2.log) == Some(status)
            && (forall j :: JobNow(m2.log, j) == JobNow(m.log, j))
            && MetricOf(m2.log, "step_count") == Some(|m.executed|)
            && MetricOf(m2.log, "success_count") == Some(m.successes)
            && MetricOf(m2.log, "failure_count") == Some(m.failures)
            && m2.job == m.job && m2.successes == m.successes
  {
    var e1, e2 := ExecutionStatus(status), History(scope, status);
    var m2 := Emit(Emit(m, e1), e2);
    ReadEmit(m.log, e1);
    ReadEmit(m.log + [e1], e2);
    forall j
      ensures JobNow(m2.log, j) == JobNow(m.log, j)
    {
      JobNowEmit(m.log, e1, j);
      JobNowEmit(m.log + [e1], e2, j);
    }
    MetricsRead(m2);
  }

  /** f reads as m does once the handler has ended the run. */
  ghost predicate Ended(m: Machine, f: Machine) {
    && f.job == m.job && f.successes == m.successes
    && Jobs(f.log) == Jobs(m.log) && Histories(f.log) == Histories(m.log) + 1
    && (forall j: nat :: JobNow(f.log, j) == if m.job == Some(j) then Some(Failed) else JobNow(m.log, j))
    && MetricOf(f.log, "step_count") == Some(|m.executed|) && MetricOf(f.log, "success_count") == Some(m.successes)
    && MetricOf(f.log, "failure_count") == Some(m.failures + 1) && ExecutionNow(f.log) == Some(Failed)
  }

  lemma FailEnds(m: Machine, step: Step, error: Fault)
    ensures Ended(m, Fail(m, step, error))
  {
    MarkFailedReads(m, step, error);
    EndReads(MarkFailed(m, step, error), Failed, Some(step.id));
  }

  lemma JobsOfFailing(m: Machine)
    requires Failing(m)
    ensures var jobs := Jobs(m.log);
            && Distinct(jobs) && m.successes <= |jobs| <= m.successes + 1
            && (m.job.Some? ==> jobs != [] && m.job.value == jobs[|jobs| - 1])
            && (m.job.None? ==> AllNow(m.log, jobs, Completed))
            && (forall k :: 0 <= k < |jobs| - 1 ==> JobNow(m.log, jobs[k]) == Some(Completed) && m.job != Some(jobs[k]))
  {
  }

  /** The books of a failed run by the kind of its fault: success_count falls one short of the
      jobs exactly when the visit had created a job and the fault was not one that comes after
      it; every job but an overwritten last one is completed. */
  ghost predicate FailedBooks(f: Machine, error: Fault) {
    var jobs := Jobs(f.log);
    && ClosedFailed(f)
    && (f.job.None? ==> AllNow(f.log, jobs, Completed) && f.successes == |jobs|)
    && (f.job.Some? ==> f.successes == if AfterJob(error) then |jobs| else |jobs| - 1)
  }

  lemma EndedBooks(m: Machine, f: Machine, error: Fault)
    requires FailingBy(m, error) && Ended(m, f)
    ensures FailedBooks(f, error)
  {
    JobsOfFailing(m);
    EndedCounts(m, f, error);
  }

  lemma EndedCounts(m: Machine, f: Machine, error: Fault)
    requires FailingBy(m, error) && Ended(m, f)
    ensures f.job.None? ==> AllNow(f.log, Jobs(f.log), Completed) && f.successes == |Jobs(f.log)|
    ensures f.job.Some? ==> f.successes == if AfterJob(error) then |Jobs(f.log)| else |Jobs(f.log)| - 1
  {
  }

  /** What is left when the handler raises: no metrics. If it was the error row that did not
      fit, there is none, the execution still runs, and so does the job unless it was completed.
      If it was the history entry, execution and job are FAILED. */
  ghost predicate EscapedBooks(m: Machine, step: Step, error: Fault) {
    && NoMetrics(m.log) && !HistoryFits(step, error) && (NoErrors(m.log) <==> !RecordFits(error))
    && ExecutionNow(m.log) == (if RecordFits(error) then Some(Failed) else Some(Running))
    && (m.job.Some? ==> Jobs(m.log) != [] && m.job.value == Jobs(m.log)[|Jobs(m.log)| - 1]
                        && JobNow(m.log, m.job.value) == Some(if RecordFits(error) then Failed
                                                              else if AfterJob(error) then Completed else Running))
  }

  lemma EscapedEarly(m: Machine, step: Step, error: Fault)
    requires FailingBy(m, error) && ExecutionNow(m.log) == Some(Running) && !RecordFits(error)
    ensures EscapedBooks(FailStep(m, step), step, error)
  {
    ReadQuiet(m.log, FailStep(m, step).log);
    HistoryFitsRecord(step, error);
    EscapeEarly(m, FailStep(m, step), step, error);
  }

  lemma EscapeEarly(m: Machine, f: Machine, step: Step, error: Fault)
    requires FailingBy(m, error) && ExecutionNow(m.log) == Some(Running) && !RecordFits(error) && !HistoryFits(step, error)
    requires f.job == m.job && Jobs(f.log) == Jobs(m.log) && ExecutionNow(f.log) == ExecutionNow(m.log)
    requires NoMetrics(f.log) && NoErrors(f.log) && forall j :: JobNow(f.log, j) == JobNow(m.log, j)
    ensures EscapedBooks(f, step, error)
  {
    JobsOfFailing(m);
    if m.job.Some? {
      JobStands(m, error);
    }
  }

  lemma EscapedLate(m: Machine, step: Step, error: Fault)
    requires FailingBy(m, error) && RecordFits(error) && !HistoryFits(step, error)
    ensures EscapedBooks(Emit(MarkFailed(m, step, error), ExecutionStatus(Failed)), step, error)
  {
    var m3 := MarkFailed(m, step, error);
    MarkFailedReads(m, step, error);
    MarkFailedRecords(m, step, error);
    StatusReads(m3);
    EscapeLate(m, Emit(m3, ExecutionStatus(Failed)), step, error);
  }

  lemma StatusReads(m: Machine)
    requires NoMetrics(m.log) && !NoErrors(m.log)
    ensures var f := Emit(m, ExecutionStatus(Failed));
            && f.job == m.job && Jobs(f.log) == Jobs(m.log) && ExecutionNow(f.log) == Some(Failed)
            && NoMetrics(f.log) && !NoErrors(f.log) && (forall j :: JobNow(f.log, j) == JobNow(m.log, j))
  {
    var e := ExecutionStatus(Failed);
    ReadEmit(m.log, e);
    forall j
      ensures JobNow(m.log + [e], j) == JobNow(m.log, j)
    {
      JobNowEmit(m.log, e, j);
    }
    var i :| 0 <= i < |m.log| && m.log[i].ErrorRecorded?;
    assert (m.log + [e])[i].ErrorRecorded?;
  }

  lemma MarkFailedRecords(m: Machine, step: Step, error: Fault)
    requires NoMetrics(m.log)
    ensures var m3 := MarkFailed(m, step, error); NoMetrics(m3.log) && !NoErrors(m3.log)
  {
    assert MarkFailed(m, step, error).log[|m.log| + 1].ErrorRecorded?;
  }

  lemma EscapeLate(m: Machine, f: Machine, step: Step, error: Fault)
    requires FailingBy(m, error) && RecordFits(error) && !HistoryFits(step, error)
    requires f.job == m.job && Jobs(f.log) == Jobs(m.log) && ExecutionNow(f.log) == Some(Failed)
    requires NoMetrics(f.log) && !NoErrors(f.log) && (m.job.Some? ==> JobNow(f.log, m.job.value) == Some(Failed))
    ensures EscapedBooks(f, step, error)
  {
    JobsOfFailing(m);
  }

  lemma JobStands(m: Machine, error: Fault)
    requires FailingBy(m, error) && m.job.Some?
    ensures JobNow(m.log, m.job.value) == Some(if AfterJob(error) then Completed else Running)
  {
  }

  /** The history column is the shorter one. */
  lemma HistoryFitsRecord(step: Step, error: Fault)
    ensures HistoryFits(step, error) ==> RecordFits(error)
  {
    assert |HistoryText(step, error)| >= |Message(error)|;
    assert |ErrorText(error)| <= if Message(error) != "" then |Message(error)| else MAX_ERROR;
  }

  /** The books of a run, given the jobs and history entries that its visits account for. */
  ghost predicate RunBooked(steps: seq<Step>, run: Run, jobs: nat, histories: nat) {
    match run
    case RunCompleted(m) => ClosedCompleted(m, jobs, histories + 1)
    case RunFailed(m, at, error) =>
      && at < |steps| && HistoryFits(steps[at], error) && FailedBooks(m, error)
      && histories <= Histories(m.log) <= histories + 1
    case RunEscaped(m, at, error) => at < |steps| && EscapedBooks(m, steps[at], error)
    case CutOff(m, _) => Balanced(m)
  }

  lemma HandleBooked(steps: seq<Step>, m: Machine, k: nat, error: Fault, jobs: nat, histories: nat)
    requires k < |steps| && FailingBy(m, error) && ExecutionNow(m.log) == Some(Running)
    requires histories <= Histories(m.log) + 1 <= histories + 1
    ensures RunBooked(steps, Handle(m, steps[k], k, error), jobs, histories)
  {
    if !RecordFits(error) {
      EscapedEarly(m, steps[k], error);
      EscapeBooked(steps, FailStep(m, steps[k]), k, error, jobs, histories);
    } else if !HistoryFits(steps[k], error) {
      EscapedLate(m, steps[k], error);
      EscapeBooked(steps, Emit(MarkFailed(m, steps[k], error), ExecutionStatus(Failed)), k, error, jobs, histories);
    } else {
      FailEnds(m, steps[k], error);
      FailureBooked(steps, m, Fail(m, steps[k], error), k, error, jobs, histories);
    }
  }

  lemma EscapeBooked(steps: seq<Step>, m: Machine, k: nat, error: Fault, jobs: nat, histories: nat)
    requires k < |steps| && EscapedBooks(m, steps[k], error)
    ensures RunBooked(steps, RunEscaped(m, k, error), jobs, histories)
  {
  }

  lemma FailureBooked(steps: seq<Step>, m: Machine, f: Machine, k: nat, error: Fault, jobs: nat, histories: nat)
    requires k < |steps| && FailingBy(m, error) && Ended(m, f) && HistoryFits(steps[k], error)
    requires histories <= Histories(m.log) + 1 <= histories + 1
    ensures RunBooked(steps, RunFailed(f, k, error), jobs, histories)
  {
    EndedBooks(m, f, error);
  }

  lemma {:induction false} StepsAccount(steps: seq<Step>, visit: Visitor, count: Counter, m: Machine, i: Option<nat>, bound: nat)
    requires Lands(visit, |steps|) && (i.Some? ==> i.value < |steps|)
    requires Accounts(visit, count, |steps|) && Balanced(m) && ExecutionNow(m.log) == Some(Running)
    ensures RunBooked(steps, Steps(steps, visit, m, i, bound), |Jobs(m.log)| + Planned(visit, count, m, i, bound),
                      Histories(m.log) + 2 * |Trail(visit, m, i, bound)|)
    decreases bound
  {
    if i.None? {
      FinishCloses(m);
    } else if bound > 0 {
      var o := visit(m, i.value);
      assert VisitBooked(m, o, count(m, i.value));
      if o.Done? {
        StepsAccount(steps, visit, count, o.m, o.value, bound - 1);
      } else {
        HandleBooked(steps, o.m, i.value, o.error, |Jobs(m.log)| + Planned(visit, count, m, i, bound),
                     Histories(m.log) + 2 * |Trail(visit, m, i, bound)|);
      }
    }
  }

  /** Job accounting of every run: a completed run has only completed jobs, as many as its
      visits had items, and 2 + 2 * visits history entries; a failed run that returns counts
      one failure and fails at most its last job; step_count and success_count never differ;
      a run whose handler raises has recorded no metrics. */
  lemma RunAccounts(h: Host, env: Services, steps: seq<Step>, clock: nat, bound: nat)
    ensures var visit := VisitorOf(h, Operations(h, env), steps);
            var m := Start(Fresh(clock));
            var visits := |Trail(visit, m, FirstStep(steps), bound)|;
            RunBooked(steps, Execute(steps, visit, clock, bound), Planned(visit, ItemCounter(h, steps), m, FirstStep(steps), bound),
                      1 + 2 * visits)
  {
    var visit := VisitorOf(h, Operations(h, env), steps);
    VisitorAccounts(h, env, steps);
    StartBooks(clock);
    StepsAccount(steps, visit, ItemCounter(h, steps), Start(Fresh(clock)), FirstStep(steps), bound);
  }

  lemma StartBooks(clock: nat)
    ensures var m := Start(Fresh(clock));
            Balanced(m) && ExecutionNow(m.log) == Some(Running) && Jobs(m.log) == [] && Histories(m.log) == 1
  {
    var e1, e2 := ExecutionStatus(Running), History(None, Running);
    assert Start(Fresh(clock)).log == [e1] + [e2];
    ReadEmit([], e1);
    ReadEmit([e1], e2);
    assert [] + [e1] == [e1];
  }

  /** A failed run that had created a job in its last visit has overwritten that job, and
      counts it only if the fault came from the condition or its branch target; otherwise all
      its jobs are COMPLETED and counted. */
  ghost predicate Counted(m: Machine, error: Fault) {
    var jobs := Jobs(m.log);
    var count := MetricOf(m.log, "success_count");
    && (m.job.Some? ==>
          && jobs != [] && JobNow(m.log, jobs[|jobs| - 1]) == Some(Failed)
          && (forall k :: 0 <= k < |jobs| - 1 ==> JobNow(m.log, jobs[k]) == Some(Completed))
          && (count == Some(|jobs|) <==> error.ConditionFault? || error.NoTarget?)
          && (count == Some(|jobs| - 1) <==> !error.ConditionFault? && !error.NoTarget?))
    && (m.job.None? ==> count == Some(|jobs|) && AllNow(m.log, jobs, Completed))
  }

  lemma BooksCount(m: Machine, error: Fault)
    requires FailedBooks(m, error)
    ensures Counted(m, error)
  {
  }

  /** Exactly when success_count counts a job that ends up FAILED: the run fails over a
      condition or a branch target. */
  lemma OvercountIff(h: Host, env: Services, steps: seq<Step>, clock: nat, bound: nat)
    requires Execute(steps, VisitorOf(h, Operations(h, env), steps), clock, bound).RunFailed?
    ensures var run := Execute(steps, VisitorOf(h, Operations(h, env), steps), clock, bound); Counted(run.m, run.error)
  {
    RunAccounts(h, env, steps, clock, bound);
    var run := Execute(steps, VisitorOf(h, Operations(h, env), steps), clock, bound);
    BooksCount(run.m, run.error);
  }

  /** A run that ends in a fault returns, with its books closed, exactly when the fault's text
      fits the history entry. */
  lemma FailureReturnsIff(h: Host, env: Services, steps: seq<Step>, clock: nat, bound: nat)
    requires var run := Execute(steps, VisitorOf(h, Operations(h, env), steps), clock, bound); run.RunFailed? || run.RunEscaped?
    ensures var run := Execute(steps, VisitorOf(h, Operations(h, env), steps), clock, bound);
            && run.at < |steps|
            && (run.RunFailed? <==> |"Step "| + |steps[run.at].name| + |" failed: "| + |Message(run.error)| <= 500)
            && (ClosedFailed(run.m) <==> run.RunFailed?)
            && (run.RunEscaped? ==> EscapedBooks(run.m, steps[run.at], run.error))
  {
    RunAccounts(h, env, steps, clock, bound);
    var run := Execute(steps, VisitorOf(h, Operations(h, env), steps), clock, bound);
    if run.RunEscaped? {
      NoMetricRead(run.m.log, "failure_count");
    }
  }

  lemma {:induction false} NoMetricRead(log: seq<Event>, metric: string)
    requires NoMetrics(log)
    ensures MetricOf(log, metric) == None
  {
    if log != [] {
      NoMetricRead(log[..|log| - 1], metric);
    }
  }
}
