/** A step's values under its name and under its id agree, and stay until the step runs again. */
module Aliases {
  import opened Values
  import opened Contexts
  import opened Workflows
  import opened Interpreter
  import opened OperationProperties
  import opened Accounting
  import opened Progress

  /** No loop variable is the name or the id of a step. */
  ghost predicate LoopVariablesApart(h: Host, steps: seq<Step>) {
    forall i, j :: 0 <= i < |steps| && 0 <= j < |steps| && Looping(steps[i]) ==> !Names(h, steps[j], LoopVariable(steps[i]))
  }

  ghost predicate AlignedIn(h: Host, steps: seq<Step>, values: map<string, Value>) {
    forall i :: 0 <= i < |steps| ==> Find(values, steps[i].name) == Find(values, Key(h, steps[i]))
  }

  /** The four product namespaces agree on name and id of every step. */
  ghost predicate Aligned(h: Host, steps: seq<Step>, c: Context) {
    && AlignedIn(h, steps, c.artifacts) && AlignedIn(h, steps, c.assets)
    && AlignedIn(h, steps, c.images) && AlignedIn(h, steps, c.videos)
  }

  /** Publishing under both keys of one step disturbs no other step, and aligns its own. */
  lemma AlignedPut(h: Host, steps: seq<Step>, i: nat, values: map<string, Value>, v: Value)
    requires UniqueKeys(h, steps) && i < |steps| && AlignedIn(h, steps, values)
    ensures AlignedIn(h, steps, values[Key(h, steps[i]) := v][steps[i].name := v])
  {
    var values2 := values[Key(h, steps[i]) := v][steps[i].name := v];
    forall j | 0 <= j < |steps|
      ensures Find(values2, steps[j].name) == Find(values2, Key(h, steps[j]))
    {
      assert Names(h, steps[j], steps[j].name) && Names(h, steps[j], Key(h, steps[j]));
      assert Names(h, steps[i], steps[i].name) && Names(h, steps[i], Key(h, steps[i]));
    }
  }

  lemma AlignedSetBoth(h: Host, steps: seq<Step>, i: nat, m: Machine, space: Namespace, v: Value)
    requires UniqueKeys(h, steps) && i < |steps| && Aligned(h, steps, m.context)
    ensures Aligned(h, steps, SetBoth(h, m, space, steps[i], v).context)
  {
    if ProductSpace(space) {
      AlignedPut(h, steps, i, Space(m.context, space), v);
    }
  }

  lemma OperateAligned(h: Host, env: Services, steps: seq<Step>, i: nat, m: Machine)
    requires UniqueKeys(h, steps) && i < |steps| && Aligned(h, steps, m.context)
    ensures Aligned(h, steps, Operate(h, env, m, steps[i]).m.context)
  {
    var keeps := (x: Machine) => Aligned(h, steps, x.context);
    forall m2, space, v | keeps(m2)
      ensures keeps(SetBoth(h, m2, space, steps[i], v))
    {
      AlignedSetBoth(h, steps, i, m2, space, v);
    }
    OperateKeeps(h, env, m, steps[i], keeps);
  }

  /** What an operation does to the two namespaces of outputs and variables: nothing. */
  lemma OperateOutputs(h: Host, env: Services, m: Machine, step: Step)
    ensures Operate(h, env, m, step).m.context.outputs == m.context.outputs
  {
    var keeps := (x: Machine) => x.context.outputs == m.context.outputs;
    OperateKeeps(h, env, m, step, keeps);
  }

  /** An operator that keeps products aligned and publishes no output. */
  ghost predicate Discreet(h: Host, steps: seq<Step>, op: Operator) {
    forall m, i :: 0 <= i < |steps| ==>
      && op(m, steps[i]).m.context.outputs == m.context.outputs
      && (Aligned(h, steps, m.context) ==> Aligned(h, steps, op(m, steps[i]).m.context))
  }

  lemma OperationsDiscreet(h: Host, env: Services, steps: seq<Step>)
    requires UniqueKeys(h, steps)
    ensures Discreet(h, steps, Operations(h, env))
  {
    forall m, i | 0 <= i < |steps|
      ensures Operations(h, env)(m, steps[i]).m.context.outputs == m.context.outputs
      ensures Aligned(h, steps, m.context) ==> Aligned(h, steps, Operations(h, env)(m, steps[i]).m.context)
    {
      OperateOutputs(h, env, m, steps[i]);
      if Aligned(h, steps, m.context) {
        OperateAligned(h, env, steps, i, m);
      }
    }
  }

  /** Every output that is not the loop variable's is untouched by the items of a step. */
  ghost predicate OutputsApart(step: Step, c: Context, c2: Context) {
    forall key :: (Looping(step) ==> key != LoopVariable(step)) ==> Find(c2.outputs, key) == Find(c.outputs, key)
  }

  lemma BindAligned(h: Host, steps: seq<Step>, step: Step, m: Machine, item: Option<Value>)
    requires Aligned(h, steps, m.context) && (item.Some? ==> Looping(step))
    ensures var m1 := Bind(m, step, item); Aligned(h, steps, m1.context) && OutputsApart(step, m.context, m1.context)
  {
  }

  lemma {:induction false} IterationsAligned(h: Host, steps: seq<Step>, op: Operator, i: nat, m: Machine, items: seq<Option<Value>>)
    requires Discreet(h, steps, op) && i < |steps| && Aligned(h, steps, m.context)
    requires forall k :: 0 <= k < |items| && items[k].Some? ==> Looping(steps[i])
    ensures var o := Iterations(op, m, steps[i], items); Aligned(h, steps, o.m.context) && OutputsApart(steps[i], m.context, o.m.context)
    decreases |items|
  {
    if items != [] {
      var step := steps[i];
      var m1 := Bind(m, step, items[0]);
      BindAligned(h, steps, step, m, items[0]);
      var m2 := OpenJob(m1, step, items[0]);
      var o := op(m2, step);
      assert o.m.context.outputs == m1.context.outputs;
      if o.Done? {
        IterationsAligned(h, steps, op, i, CloseJob(o.m, m1.clock, o.value.output), items[1..]);
      }
    }
  }

  lemma BodyAligned(h: Host, steps: seq<Step>, op: Operator, i: nat, m: Machine)
    requires Discreet(h, steps, op) && i < |steps| && Aligned(h, steps, m.context)
    ensures var o := Body(h, op, m, steps[i]); Aligned(h, steps, o.m.context) && OutputsApart(steps[i], m.context, o.m.context)
  {
    var items := Items(h, m.context, steps[i]);
    if items.Ok? {
      if JobFits(steps[i], items.value) {
        IterationsAligned(h, steps, op, i, m, items.value);
      } else {
        BindAligned(h, steps, steps[i], m, items.value[0]);
      }
    }
  }

  /** The outputs of all steps but the visited one are kept, and all outputs stay aligned. */
  ghost predicate VisitAligned(h: Host, steps: seq<Step>, m: Machine, m2: Machine, i: nat) {
    && Aligned(h, steps, m2.context)
    && (LoopVariablesApart(h, steps) ==>
          && (AlignedIn(h, steps, m.context.outputs) ==> AlignedIn(h, steps, m2.context.outputs))
          && forall j :: 0 <= j < |steps| && j != i ==> Find(m2.context.outputs, steps[j].name) == Find(m.context.outputs, steps[j].name))
  }

  lemma VisitAligns(h: Host, steps: seq<Step>, op: Operator, i: nat, m: Machine)
    requires UniqueKeys(h, steps) && Discreet(h, steps, op) && i < |steps| && Aligned(h, steps, m.context)
    ensures VisitAligned(h, steps, m, Visit(h, op, steps, m, i).m, i)
  {
    var step := steps[i];
    var m1 := OpenVisit(m, step);
    BodyAligned(h, steps, op, i, m1);
    var o := Body(h, op, m1, step);
    if LoopVariablesApart(h, steps) {
      OutputsKept(h, steps, i, m.context, o.m.context);
    }
    if o.Done? {
      CloseAligned(h, steps, i, o.m, o.value);
    }
  }

  lemma OutputsKept(h: Host, steps: seq<Step>, i: nat, c: Context, c2: Context)
    requires LoopVariablesApart(h, steps) && i < |steps| && OutputsApart(steps[i], c, c2)
    ensures forall j :: 0 <= j < |steps| ==> Find(c2.outputs, steps[j].name) == Find(c.outputs, steps[j].name)
                                             && Find(c2.outputs, Key(h, steps[j])) == Find(c.outputs, Key(h, steps[j]))
  {
    forall j | 0 <= j < |steps|
      ensures Find(c2.outputs, steps[j].name) == Find(c.outputs, steps[j].name)
      ensures Find(c2.outputs, Key(h, steps[j])) == Find(c.outputs, Key(h, steps[j]))
    {
      assert Names(h, steps[j], steps[j].name) && Names(h, steps[j], Key(h, steps[j]));
    }
  }

  lemma CloseAligned(h: Host, steps: seq<Step>, i: nat, m: Machine, output: Value)
    requires UniqueKeys(h, steps) && i < |steps| && Aligned(h, steps, m.context)
    ensures var m2 := CloseVisit(h, m, steps[i], output);
            && Aligned(h, steps, m2.context)
            && (AlignedIn(h, steps, m.context.outputs) ==> AlignedIn(h, steps, m2.context.outputs))
            && forall j :: 0 <= j < |steps| && j != i ==> Find(m2.context.outputs, steps[j].name) == Find(m.context.outputs, steps[j].name)
  {
    if AlignedIn(h, steps, m.context.outputs) {
      AlignedPut(h, steps, i, m.context.outputs, output);
    }
    OthersKept(h, steps, i, m.context.outputs, output);
  }

  lemma OthersKept(h: Host, steps: seq<Step>, i: nat, values: map<string, Value>, v: Value)
    requires UniqueKeys(h, steps) && i < |steps|
    ensures forall j :: 0 <= j < |steps| && j != i ==>
              Find(values[Key(h, steps[i]) := v][steps[i].name := v], steps[j].name) == Find(values, steps[j].name)
  {
    forall j | 0 <= j < |steps| && j != i
      ensures Find(values[Key(h, steps[i]) := v][steps[i].name := v], steps[j].name) == Find(values, steps[j].name)
    {
      assert Names(h, steps[j], steps[j].name);
      assert Names(h, steps[i], steps[i].name) && Names(h, steps[i], Key(h, steps[i]));
    }
  }

  ghost predicate Aligns(h: Host, steps: seq<Step>, visit: Visitor) {
    forall m: Machine, i: nat :: i < |steps| && Aligned(h, steps, m.context) ==> VisitAligned(h, steps, m, visit(m, i).m, i)
  }

  lemma VisitorAligns(h: Host, env: Services, steps: seq<Step>)
    requires UniqueKeys(h, steps)
    ensures Aligns(h, steps, VisitorOf(h, Operations(h, env), steps))
  {
    var op := Operations(h, env);
    OperationsDiscreet(h, env, steps);
    forall m: Machine, i: nat | i < |steps| && Aligned(h, steps, m.context)
      ensures VisitAligned(h, steps, m, VisitorOf(h, op, steps)(m, i).m, i)
    {
      VisitAligns(h, steps, op, i, m);
    }
  }

  /** Aligned values, and outputs of unvisited steps as they were. */
  ghost predicate RunAligned(h: Host, steps: seq<Step>, m: Machine, m2: Machine, trail: seq<nat>) {
    && Aligned(h, steps, m2.context)
    && (LoopVariablesApart(h, steps) ==>
          && (AlignedIn(h, steps, m.context.outputs) ==> AlignedIn(h, steps, m2.context.outputs))
          && forall j :: 0 <= j < |steps| && j !in trail ==> Find(m2.context.outputs, steps[j].name) == Find(m.context.outputs, steps[j].name))
  }

  lemma SameAligned(h: Host, steps: seq<Step>, m: Machine, m2: Machine)
    requires Aligned(h, steps, m.context) && m2.context == m.context
    ensures RunAligned(h, steps, m, m2, [])
  {
  }

  lemma VisitThen(h: Host, steps: seq<Step>, m: Machine, m1: Machine, m2: Machine, i: nat, rest: seq<nat>)
    requires VisitAligned(h, steps, m, m1, i) && RunAligned(h, steps, m1, m2, rest)
    ensures RunAligned(h, steps, m, m2, [i] + rest)
  {
    assert forall j :: j in [i] + rest <==> j == i || j in rest;
  }

  lemma {:induction false} StepsAlign(h: Host, steps: seq<Step>, visit: Visitor, m: Machine, i: Option<nat>, bound: nat)
    requires Lands(visit, |steps|) && (i.Some? ==> i.value < |steps|)
    requires Aligns(h, steps, visit) && Aligned(h, steps, m.context)
    ensures RunAligned(h, steps, m, Steps(steps, visit, m, i, bound).m, Trail(visit, m, i, bound))
    decreases bound
  {
    if i.Some? && bound > 0 {
      var o := visit(m, i.value);
      assert VisitAligned(h, steps, m, o.m, i.value);
      var end := Steps(steps, visit, m, i, bound).m;
      if o.Done? {
        StepsAlign(h, steps, visit, o.m, o.value, bound - 1);
        VisitThen(h, steps, m, o.m, end, i.value, Trail(visit, o.m, o.value, bound - 1));
      } else {
        HandleKeeps(o.m, steps[i.value], i.value, o.error);
        SameAligned(h, steps, o.m, end);
        VisitThen(h, steps, m, o.m, end, i.value, []);
      }
    } else {
      SameAligned(h, steps, m, Steps(steps, visit, m, i, bound).m);
    }
  }

  /** With unique names disjoint from ids, after any number of visits of any run the artifact,
      asset, image and video values under a step's name and id are equal; when no loop variable
      is an identifier the same holds for outputs. */
  lemma RunsAlign(h: Host, env: Services, steps: seq<Step>, clock: nat, bound: nat)
    requires UniqueKeys(h, steps)
    ensures var c := Execute(steps, VisitorOf(h, Operations(h, env), steps), clock, bound).m.context;
            Aligned(h, steps, c) && (LoopVariablesApart(h, steps) ==> AlignedIn(h, steps, c.outputs))
  {
    VisitorAligns(h, env, steps);
    StepsAlign(h, steps, VisitorOf(h, Operations(h, env), steps), Start(Fresh(clock)), FirstStep(steps), bound);
  }

  /** From any aligned point of a run on, a step that is not visited keeps its output. */
  lemma OutputsPersist(h: Host, env: Services, steps: seq<Step>, m: Machine, i: Option<nat>, bound: nat, j: nat)
    requires UniqueKeys(h, steps) && LoopVariablesApart(h, steps) && Aligned(h, steps, m.context)
    requires (i.Some? ==> i.value < |steps|) && j < |steps|
    requires j !in Trail(VisitorOf(h, Operations(h, env), steps), m, i, bound)
    ensures Find(Steps(steps, VisitorOf(h, Operations(h, env), steps), m, i, bound).m.context.outputs, steps[j].name)
              == Find(m.context.outputs, steps[j].name)
  {
    VisitorAligns(h, env, steps);
    StepsAlign(h, steps, VisitorOf(h, Operations(h, env), steps), m, i, bound);
  }
}
