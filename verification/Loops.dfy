/** A loop step as a left fold over its list. */
module Loops {
  import opened Values
  import opened Contexts
  import Prompts
  import opened Workflows
  import opened Interpreter
  import opened Progress

  /** The machine before the k-th item, when the items before it succeed. */
  function Before(op: Operator, m: Machine, step: Step, items: seq<Option<Value>>, k: nat): Machine
    requires k <= |items|
  {
    if k == 0 then m else Iteration(op, Before(op, m, step, items, k - 1), step, items[k - 1]).m
  }

  lemma {:induction false} BeforeTail(op: Operator, m: Machine, step: Step, items: seq<Option<Value>>, k: nat)
    requires k < |items|
    ensures Before(op, Iteration(op, m, step, items[0]).m, step, items[1..], k) == Before(op, m, step, items, k + 1)
  {
    if k > 0 {
      BeforeTail(op, m, step, items, k - 1);
      assert items[1..][k - 1] == items[k];
    } else {
      assert Before(op, m, step, items, 0) == m;
    }
  }

  /** A successful item loop visits the items in order, threads the machine through, and
      collects one result per item. */
  lemma {:induction false} IterationsFold(op: Operator, m: Machine, step: Step, items: seq<Option<Value>>, k: nat)
    requires Iterations(op, m, step, items).Done? && k < |items|
    ensures var results := Iterations(op, m, step, items).value;
            |results| == |items| && Iteration(op, Before(op, m, step, items, k), step, items[k])
              == Done(Before(op, m, step, items, k + 1), results[k])
    decreases |items|
  {
    var o := Iteration(op, m, step, items[0]);
    IterationsLength(op, m, step, items);
    if k == 0 {
      assert Before(op, m, step, items, 0) == m;
    } else {
      IterationsFold(op, o.m, step, items[1..], k - 1);
      BeforeTail(op, m, step, items, k - 1);
      if k - 1 > 0 {
        BeforeTail(op, m, step, items, k - 2);
      }
      BeforeTail(op, m, step, items, k - 1);
      assert items[1..][k - 1] == items[k];
      BeforeShift(op, m, step, items, k);
    }
  }

  lemma BeforeShift(op: Operator, m: Machine, step: Step, items: seq<Option<Value>>, k: nat)
    requires 0 < k < |items|
    ensures Before(op, Iteration(op, m, step, items[0]).m, step, items[1..], k - 1) == Before(op, m, step, items, k)
  {
    BeforeTail(op, m, step, items, k - 1);
  }

  /** The output of a successful loop step has the length of its source list, and element k is
      the operation's result on item k; a step without loop has exactly one result. */
  lemma LoopIsFold(h: Host, op: Operator, m: Machine, step: Step, k: nat)
    requires Body(h, op, m, step).Done? && Looping(step)
    ensures var source := ResolveToAny(h, m.context, step.loopSource);
            var output := Body(h, op, m, step).value;
            && source.Ok? && source.value.List? && output.List? && |output.items| == |source.value.items|
            && (k < |output.items| ==>
                  Iteration(op, Before(op, m, step, Wrap(source.value.items), k), step, Some(source.value.items[k]))
                    == Done(Before(op, m, step, Wrap(source.value.items), k + 1), output.items[k]))
  {
    var items := Items(h, m.context, step).value;
    IterationsLength(op, m, step, items);
    if k < |items| {
      IterationsFold(op, m, step, items, k);
    }
  }

  /** The context in which an item is processed, when the items before it published nothing. */
  function Bound(c: Context, step: Step, item: Value): Context {
    Put(Put(c, Outputs, LoopVariable(step), item), Variables, LoopVariable(step), item)
  }

  /** No text answer carries an artifact or an asset. */
  ghost predicate PlainAnswers(env: Services) {
    forall n :: env.text(n).Ok? ==> env.text(n).value.artifactType == "" && env.text(n).value.assetId.None?
  }

  predicate SameBut(m: map<string, Value>, n: map<string, Value>, key: string) {
    m - {key} == n - {key}
  }

  /** Nothing but the loop variable's bindings differs from c. */
  predicate OnlyVariable(step: Step, c: Context, c2: Context) {
    && c2 == c.(outputs := c2.outputs, variables := c2.variables)
    && SameBut(c.outputs, c2.outputs, LoopVariable(step)) && SameBut(c.variables, c2.variables, LoopVariable(step))
  }

  lemma Overwrite(m: map<string, Value>, n: map<string, Value>, key: string, v: Value)
    requires SameBut(m, n, key)
    ensures n[key := v] == m[key := v]
  {
    forall k | k != key
      ensures k in m <==> k in n
      ensures k in m ==> m[k] == n[k]
    {
      assert k in m - {key} <==> k in m;
      assert k in n - {key} <==> k in n;
      if k in m {
        assert (m - {key})[k] == (n - {key})[k];
      }
    }
  }

  lemma RebindForgets(step: Step, c: Context, c2: Context, item: Value)
    requires OnlyVariable(step, c, c2)
    ensures Bound(c2, step, item) == Bound(c, step, item) && OnlyVariable(step, c, Bound(c, step, item))
  {
    Overwrite(c.outputs, c2.outputs, LoopVariable(step), item);
    Overwrite(c.variables, c2.variables, LoopVariable(step), item);
  }

  /** result answers the prompt composed in context c; the prompt is the last event before
      the job is closed. */
  ghost predicate Answered(h: Host, env: Services, c: Context, ticket: nat, step: Step, result: Value, log: seq<Event>) {
    var prompt := Prompts.Build(h, c, ConfigOf(step), step.name);
    var answer := env.text(ticket);
    && prompt.Ok? && answer.Ok? && result == answer.value.content
    && |log| >= 2 && log[|log| - 2] == Prompted(step.id, prompt.value)
  }

  /** One iteration binds the loop variable, makes two tickets' worth of calls and publishes
      nothing else. */
  ghost predicate Rebinds(m: Machine, step: Step, item: Value, o: Outcome<Value>) {
    o.Done? ==> o.m.context == Bound(m.context, step, item) && o.m.clock == m.clock + 2
  }

  ghost predicate Rebinding(op: Operator, step: Step) {
    forall m: Machine, item: Value :: Rebinds(m, step, item, Iteration(op, m, step, Some(item)))
  }

  lemma OperationsRebind(h: Host, env: Services, step: Step)
    requires IsText(step) && PlainAnswers(env)
    ensures Rebinding(Operations(h, env), step)
  {
    var op := Operations(h, env);
    forall m: Machine, item: Value
      ensures Rebinds(m, step, item, Iteration(op, m, step, Some(item)))
    {
      var m2 := OpenJob(Bind(m, step, Some(item)), step, Some(item));
      OpenedContext(m, step, item);
      OperationsAnswer(h, env, m2, step);
    }
  }

  /** What a plain text operation does to the machine. */
  ghost predicate Replies(h: Host, env: Services, m: Machine, step: Step, o: Outcome<Product>) {
    o.Done? ==>
      var prompt := Prompts.Build(h, m.context, ConfigOf(step), step.name);
      && prompt.Ok? && env.text(m.clock).Ok? && o.value.result == env.text(m.clock).value.content
      && o.m == Tick(Emit(m, Prompted(step.id, prompt.value)))
  }

  lemma OperationsAnswer(h: Host, env: Services, m: Machine, step: Step)
    requires IsText(step) && PlainAnswers(env)
    ensures Replies(h, env, m, step, Operations(h, env)(m, step))
  {
    assert Operations(h, env)(m, step) == TextOperation(h, env, m, step);
  }

  lemma OpenedContext(m: Machine, step: Step, item: Value)
    ensures var m2 := OpenJob(Bind(m, step, Some(item)), step, Some(item));
            m2.context == Bound(m.context, step, item) && m2.clock == m.clock + 1
  {
  }

  lemma IterationAnswers(h: Host, env: Services, op: Operator, m: Machine, step: Step, item: Value)
    requires var m2 := OpenJob(Bind(m, step, Some(item)), step, Some(item)); Replies(h, env, m2, step, op(m2, step))
    requires Iteration(op, m, step, Some(item)).Done?
    ensures var o := Iteration(op, m, step, Some(item));
            Answered(h, env, Bound(m.context, step, item), m.clock + 1, step, o.value, o.m.log)
  {
    OpenedContext(m, step, item);
  }

  lemma RebindOne(op: Operator, base: Context, m: Machine, step: Step, item: Option<Value>, o: Outcome<Value>)
    requires Rebinding(op, step) && OnlyVariable(step, base, m.context) && item.Some?
    requires o.Done? && o == Iteration(op, m, step, item)
    ensures OnlyVariable(step, base, o.m.context) && o.m.clock == m.clock + 2
  {
    assert Rebinds(m, step, item.value, Iteration(op, m, step, Some(item.value)));
    RebindForgets(step, base, m.context, item.value);
  }

  /** The items before the k-th are processed without an exception. */
  ghost predicate Passes(op: Operator, m: Machine, step: Step, items: seq<Option<Value>>, k: nat) {
    k <= |items| && forall n: nat :: n < k ==> items[n].Some? && Iteration(op, Before(op, m, step, items, n), step, items[n]).Done?
  }

  lemma FoldPasses(op: Operator, m: Machine, step: Step, items: seq<Option<Value>>, k: nat)
    requires Iterations(op, m, step, items).Done? && k <= |items|
    requires forall n :: 0 <= n < |items| ==> items[n].Some?
    ensures Passes(op, m, step, items, k)
  {
    forall n: nat | n < k
      ensures Iteration(op, Before(op, m, step, items, n), step, items[n]).Done?
    {
      IterationsFold(op, m, step, items, n);
    }
  }

  /** n is m after a pass that only rebinds the variable. */
  predicate Passed(step: Step, base: Context, m: Machine, n: Machine) {
    OnlyVariable(step, base, m.context) ==> OnlyVariable(step, base, n.context) && n.clock == m.clock + 2
  }

  /** The machines before each of the first k items, and after them. */
  function Machines(op: Operator, m: Machine, step: Step, items: seq<Option<Value>>, k: nat): (ms: seq<Machine>)
    requires k <= |items|
    ensures |ms| == k + 1 && ms[0] == m && forall i: nat :: i <= k ==> ms[i] == Before(op, m, step, items, i)
  {
    if k == 0 then [m] else Machines(op, m, step, items, k - 1) + [Before(op, m, step, items, k)]
  }

  lemma PassesLess(op: Operator, m: Machine, step: Step, items: seq<Option<Value>>, k: nat, j: nat)
    requires Passes(op, m, step, items, k) && j <= k
    ensures Passes(op, m, step, items, j)
  {
  }

  lemma PassOne(op: Operator, m: Machine, step: Step, items: seq<Option<Value>>, k: nat, base: Context)
    requires Rebinding(op, step) && Passes(op, m, step, items, k + 1)
    ensures Passed(step, base, Before(op, m, step, items, k), Before(op, m, step, items, k + 1))
  {
    var b := Before(op, m, step, items, k);
    if OnlyVariable(step, base, b.context) {
      RebindOne(op, base, b, step, items[k], Iteration(op, b, step, items[k]));
    }
  }

  lemma {:induction false} PassedAll(step: Step, base: Context, ms: seq<Machine>, k: nat)
    requires k < |ms| && forall i :: 0 <= i < |ms| - 1 ==> Passed(step, base, ms[i], ms[i + 1])
    requires OnlyVariable(step, base, ms[0].context)
    ensures OnlyVariable(step, base, ms[k].context) && ms[k].clock == ms[0].clock + 2 * k
  {
    if k > 0 {
      PassedAll(step, base, ms, k - 1);
      assert Passed(step, base, ms[k - 1], ms[k - 1 + 1]);
    }
  }

  lemma PlainBefore(op: Operator, m: Machine, step: Step, items: seq<Option<Value>>, k: nat)
    requires Rebinding(op, step) && Passes(op, m, step, items, k)
    ensures var b := Before(op, m, step, items, k);
            OnlyVariable(step, m.context, b.context) && b.clock == m.clock + 2 * k
  {
    var ms := Machines(op, m, step, items, k);
    forall i: nat | i < k
      ensures Passed(step, m.context, ms[i], ms[i + 1])
    {
      PassesLess(op, m, step, items, k, i + 1);
      PassOne(op, m, step, items, i, m.context);
    }
    PassedAll(step, m.context, ms, k);
  }

  /** Item k of a rebinding loop is processed in the visit's own context with the loop
      variable bound to it. */
  lemma RebindingLoop(h: Host, op: Operator, m: Machine, step: Step, k: nat)
    requires Rebinding(op, step) && Looping(step)
    requires Body(h, op, m, step).Done? && k < |Body(h, op, m, step).value.items|
    ensures var items := ResolveToAny(h, m.context, step.loopSource).value.items;
            var output := Body(h, op, m, step).value.items;
            && |output| == |items|
            && var b := Before(op, m, step, Wrap(items), k);
            && Iteration(op, b, step, Some(items[k])) == Done(Before(op, m, step, Wrap(items), k + 1), output[k])
            && Bound(b.context, step, items[k]) == Bound(m.context, step, items[k])
            && b.clock == m.clock + 2 * k
  {
    var items := ResolveToAny(h, m.context, step.loopSource).value.items;
    LoopIsFold(h, op, m, step, k);
    FoldPasses(op, m, step, Wrap(items), k);
    PlainBefore(op, m, step, Wrap(items), k);
    RebindForgets(step, m.context, Before(op, m, step, Wrap(items), k).context, items[k]);
  }

  /** Item k's result answers the prompt composed in the visit's own context with the loop
      variable bound to item k. */
  ghost predicate MapsItem(h: Host, env: Services, op: Operator, m: Machine, step: Step, items: seq<Value>, k: nat, result: Value)
    requires k < |items|
  {
    Answered(h, env, Bound(m.context, step, items[k]), m.clock + 2 * k + 1, step, result,
             Before(op, m, step, Wrap(items), k + 1).log)
  }

  ghost predicate Replying(h: Host, env: Services, op: Operator, step: Step) {
    forall m :: Replies(h, env, m, step, op(m, step))
  }

  lemma ReplyingMaps(h: Host, env: Services, op: Operator, m: Machine, step: Step, k: nat)
    requires Rebinding(op, step) && Replying(h, env, op, step) && Looping(step)
    requires Body(h, op, m, step).Done? && k < |Body(h, op, m, step).value.items|
    ensures var items := ResolveToAny(h, m.context, step.loopSource).value.items;
            var output := Body(h, op, m, step).value.items;
            |output| == |items| && MapsItem(h, env, op, m, step, items, k, output[k])
  {
    var items := ResolveToAny(h, m.context, step.loopSource).value.items;
    RebindingLoop(h, op, m, step, k);
    var b := Before(op, m, step, Wrap(items), k);
    var m2 := OpenJob(Bind(b, step, Some(items[k])), step, Some(items[k]));
    assert Replies(h, env, m2, step, op(m2, step));
    IterationAnswers(h, env, op, b, step, items[k]);
    AnswerMoves(h, env, m, b, Iteration(op, b, step, Some(items[k])), step, items[k], k);
  }

  lemma AnswerMoves(h: Host, env: Services, m: Machine, b: Machine, o: Outcome<Value>, step: Step, item: Value, k: nat)
    requires o.Done? && Answered(h, env, Bound(b.context, step, item), b.clock + 1, step, o.value, o.m.log)
    requires Bound(b.context, step, item) == Bound(m.context, step, item) && b.clock == m.clock + 2 * k
    ensures Answered(h, env, Bound(m.context, step, item), m.clock + 2 * k + 1, step, o.value, o.m.log)
  {
  }

  /** A text loop that publishes no artifact or asset is a pure map over its source list: no
      result depends on the other items. */
  lemma TextLoopIsMap(h: Host, env: Services, op: Operator, m: Machine, step: Step, k: nat)
    requires op == Operations(h, env) && IsText(step) && Looping(step) && PlainAnswers(env)
    requires Body(h, op, m, step).Done? && k < |Body(h, op, m, step).value.items|
    ensures var items := ResolveToAny(h, m.context, step.loopSource).value.items;
            var output := Body(h, op, m, step).value.items;
            |output| == |items| && MapsItem(h, env, op, m, step, items, k, output[k])
  {
    OperationsRebind(h, env, step);
    OperationsReply(h, env, step);
    ReplyingMaps(h, env, op, m, step, k);
  }

  lemma OperationsReply(h: Host, env: Services, step: Step)
    requires IsText(step) && PlainAnswers(env)
    ensures Replying(h, env, Operations(h, env), step)
  {
    forall m
      ensures Replies(h, env, m, step, Operations(h, env)(m, step))
    {
      OperationsAnswer(h, env, m, step);
    }
  }
}
