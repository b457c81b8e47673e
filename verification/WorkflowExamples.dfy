/** Concrete workflows: a ready one, and accepted ones at which a plausible claim fails. */
module WorkflowExamples {
  import opened Values
  import opened References
  import opened Contexts
  import Conditions
  import Prompts
  import opened Workflows
  import opened Interpreter
  import opened Accounting
  import opened Paths
  import opened Progress
  import Validator

  /** A text step with nothing configured but its prompt. */
  function Asking(id: nat, name: string, order: int, prompt: Value): Step {
    Step(id, name, "ai", order, Some([Field("prompt", prompt)]), "", None, None, "", "")
  }

  const PLAIN := Asking(0, "a", 0, Str("x"))

  /** A second step whose prompt is the output of the first. */
  const FOLLOWER := Asking(1, "b", 1, Str("{{a}}"))

  /** a == "a", always true. */
  const ALWAYS := Conditions.Condition("a", "==", "a")

  /** The same step, branching back to itself either way. */
  function Cycle(): Step {
    PLAIN.(condition := Conditions.Print(ALWAYS), onTrue := Some(0), onFalse := Some(0))
  }

  lemma NoRefs(h: Host, t: string)
    requires '{' !in t
    ensures RefsIn(h, t) == []
  {
    NoBraceAllLiteral(h, t);
    RefsOfLiterals(Tokens(h, t));
  }

  lemma Letter(h: Host, t: string)
    requires |t| == 1 && 'a' <= t[0] <= 'z'
    ensures Strip(h, t) == t && RefsIn(h, t) == []
  {
    assert h.word(t[0]);
    StripTrimmed(h, t);
    NoRefs(h, t);
  }

  lemma ConfigOfAsking(h: Host, step: Step, prompt: Value)
    requires step.config == Some([Field("prompt", prompt)])
    ensures Get(ConfigOf(step), "prompt") == Some(prompt) && Prompts.SystemText(h, ConfigOf(step)) == None
    ensures Operation(step) == Str("text_generation") && Provider(step) == Str("mock")
  {
    var config := [Field("prompt", prompt)];
    assert config[1..] == [];
    assert Get(config[1..], "system_prompt") == None && Get(config, "system_prompt") == None;
    assert Get(config[1..], "operation") == None && Get(config, "operation") == None;
    assert Get(config[1..], "provider") == None && Get(config, "provider") == None;
  }

  lemma AskingQueries(h: Host, step: Step, text: string)
    requires step.config == Some([Field("prompt", Str(text))]) && text != "" && Strip(h, text) == text
    ensures Prompts.NonBlank(h, ConfigOf(step), step.name)
    ensures Prompts.Queried(h, ConfigOf(step), step.name) == RefsIn(h, text)
  {
    ConfigOfAsking(h, step, Str(text));
    assert RefsIn(h, text) + [] == RefsIn(h, text);
  }

  lemma CleanAsking(h: Host, known: set<string>, step: Step, text: string)
    requires step.config == Some([Field("prompt", Str(text))])
    requires Validator.AllAllowed(Validator.InConfig, known, RefsIn(h, text))
    ensures Validator.CleanConfig(h, known, ConfigOf(step))
  {
  }

  /** A reference to a step with a one-letter name. */
  lemma LetterReference(h: Host, c: char)
    requires 'a' <= c <= 'z'
    ensures var t := "{{" + [c] + "}}"; Strip(h, t) == t && RefsIn(h, t) == [Reference([c], None)]
  {
    var t := "{{" + [c] + "}}";
    StripTrimmed(h, t);
    assert h.word(c);
    assert t[..2] == "{{" && t[2..2] == "" && t[2..3] == [c] && t[3..3] == "" && t[3..5] == "}}";
    ScanParts(h, t, 2, 3, 3);
    RefsStep(h, t);
    assert SplitBody([c]) == Reference([c], None);
    assert t[5..] == "" && RefsIn(h, t[5..]) == [];
  }

  lemma FollowerReads(h: Host)
    ensures Strip(h, "{{a}}") == "{{a}}" && RefsIn(h, "{{a}}") == [Reference("a", None)]
  {
    LetterReference(h, 'a');
    assert "{{" + ['a'] + "}}" == "{{a}}";
  }

  /** Two such steps, where the second prompt refers to the first step. */
  ghost predicate Relay(h: Host, steps: seq<Step>, first: string, second: string) {
    && |steps| == 2 && |steps[0].name| == |steps[1].name| == 1
    && steps[0] == Asking(0, steps[0].name, 0, Str(first)) && steps[1] == Asking(1, steps[1].name, 1, Str(second))
    && first != "" && Strip(h, first) == first && RefsIn(h, first) == []
    && second != "" && Strip(h, second) == second && RefsIn(h, second) == [Reference(steps[0].name, None)]
  }

  /** Every path to the second step has visited the first. */
  lemma RelayOffered(h: Host, steps: seq<Step>, first: string, second: string)
    requires Relay(h, steps, first, second)
    ensures OfferedBefore(h, steps, 1, Reference(steps[0].name, None))
  {
    var ref := Reference(steps[0].name, None);
    forall path | Leads(steps, path, 1)
      ensures OfferedBy(h, steps, path[..|path| - 1], ref)
    {
      assert path[..|path| - 1][0] == 0 && Offers(h, steps[0], ref);
    }
  }

  lemma AskingReady(h: Host, steps: seq<Step>, i: nat, text: string)
    requires i < |steps| && steps[i] == Asking(i, steps[i].name, i, Str(text)) && |steps[i].name| == 1
    requires h.provider(Str("mock")) && text != "" && Strip(h, text) == text
    requires forall ref :: ref in RefsIn(h, text) ==> OfferedBefore(h, steps, i, ref)
    ensures ReadyStep(h, steps, i)
  {
    ConfigOfAsking(h, steps[i], Str(text));
    AskingQueries(h, steps[i], text);
    assert Conditions.Queried(h, "") == [];
  }

  lemma AskingClean(h: Host, ids: set<nat>, known: set<string>, step: Step, text: string)
    requires step == Asking(step.id, step.name, step.order, Str(text)) && step.name != ""
    requires Validator.AllAllowed(Validator.InConfig, known, RefsIn(h, text))
    ensures Validator.CleanStep(h, ids, known, step)
  {
    CleanAsking(h, known, step, text);
  }

  lemma RelayAccepted(h: Host, steps: seq<Step>, first: string, second: string)
    requires Relay(h, steps, first, second)
    ensures Validator.WellFormed(h, steps)
  {
    FirstNameKnown(h, steps);
    var ids, known := Validator.StepIds(steps), Validator.Identifiers(h, steps);
    RelayClean(h, steps, first, second, ids, known);
    forall i | 0 <= i < |steps|
      ensures Validator.CleanStep(h, ids, known, steps[i])
    {
      assert i == 0 || i == 1;
    }
    CleanPair(h, steps);
  }

  lemma CleanPair(h: Host, steps: seq<Step>)
    requires |steps| == 2 && steps[0].order < steps[1].order
    requires forall i :: 0 <= i < |steps| ==> Validator.CleanStep(h, Validator.StepIds(steps), Validator.Identifiers(h, steps), steps[i])
    ensures Validator.WellFormed(h, steps)
  {
  }

  lemma FirstNameKnown(h: Host, steps: seq<Step>)
    requires steps != []
    ensures steps[0].name in Validator.Identifiers(h, steps)
  {
  }

  lemma RelayClean(h: Host, steps: seq<Step>, first: string, second: string, ids: set<nat>, known: set<string>)
    requires Relay(h, steps, first, second) && steps[0].name in known
    ensures Validator.CleanStep(h, ids, known, steps[0]) && Validator.CleanStep(h, ids, known, steps[1])
  {
    AskingClean(h, ids, known, steps[0], first);
    AskingClean(h, ids, known, steps[1], second);
  }

  lemma RelayApart(h: Host, steps: seq<Step>, first: string, second: string)
    requires Relay(h, steps, first, second)
    requires h.show(Id(0)) != steps[1].name && h.show(Id(1)) != steps[0].name && steps[0].name != steps[1].name
    ensures UniqueKeys(h, steps)
  {
    ShowIdInjective(h, 0, 1);
    assert steps[0].id == 0 && steps[1].id == 1;
    forall i, j, key | 0 <= i < |steps| && 0 <= j < |steps| && Names(h, steps[i], key) && Names(h, steps[j], key)
      ensures i == j
    {
      assert i in {0, 1} && j in {0, 1};
    }
  }

  lemma RelayReady(h: Host, steps: seq<Step>, first: string, second: string)
    requires Relay(h, steps, first, second) && h.provider(Str("mock"))
    requires h.show(Id(0)) != steps[1].name && h.show(Id(1)) != steps[0].name && steps[0].name != steps[1].name
    ensures Ready(h, steps)
  {
    RelayAccepted(h, steps, first, second);
    RelayApart(h, steps, first, second);
    ForwardAcyclic(steps);
    forall i | 0 <= i < |steps|
      ensures ReadyStep(h, steps, i)
    {
      if i == 0 {
        AskingReady(h, steps, 0, first);
      } else {
        RelayOffered(h, steps, first, second);
        AskingReady(h, steps, 1, second);
      }
    }
  }

  /** The hypotheses of the progress theorem can be met by a workflow that passes a value on. */
  lemma ReadyExample(h: Host)
    requires h.provider(Str("mock")) && h.show(Id(0)) != "b" && h.show(Id(1)) != "a"
    ensures Ready(h, [PLAIN, FOLLOWER])
  {
    Letter(h, "x");
    FollowerReads(h);
    RelayReady(h, [PLAIN, FOLLOWER], "x", "{{a}}");
  }

  /** A provider that always answers with plain content. */
  ghost predicate AlwaysAnswers(env: Services) {
    forall n :: env.text(n) == Ok(TextAnswer(Str("c"), Null, "", None))
  }

  lemma ConditionHolds(h: Host, c: Context)
    ensures Conditions.Evaluate(h, c, Conditions.Print(ALWAYS)) == Ok(true)
  {
    Letter(h, "a");
    assert !Conditions.HasOperator("a");
    Conditions.PrintParse(h, ALWAYS);
    LetterResolves(h, c);
  }

  lemma LetterResolves(h: Host, c: Context)
    ensures Resolve(h, c, "a") == Ok("a")
  {
    assert "a"[1..] == "";
    assert Resolve(h, c, "a"[1..]) == Ok("");
    assert ['a'] + "" == "a";
  }

  lemma TextWorks(h: Host, env: Services, m: Machine, step: Step)
    requires h.provider(Str("mock")) && AlwaysAnswers(env)
    requires step.config == PLAIN.config && step.name == "a"
    ensures Operations(h, env)(m, step).Done?
  {
    ConfigOfAsking(h, step, Str("x"));
    assert Operations(h, env)(m, step) == TextOperation(h, env, m, step);
    Letter(h, "x");
    AskingQueries(h, step, "x");
    Prompts.BuildSucceeds(h, m.context, ConfigOf(step), "a");
  }

  lemma CycleReturns(h: Host, op: Operator, m: Machine)
    requires forall x :: op(x, Cycle()).Done?
    ensures var o := Visit(h, op, [Cycle()], m, 0); o.Done? && o.value == Some(0)
  {
    var steps := [Cycle()];
    var o := Body(h, op, OpenVisit(m, steps[0]), steps[0]);
    BodyWorks(h, op, OpenVisit(m, steps[0]));
    var m2 := CloseVisit(h, o.m, steps[0], o.value);
    ConditionHolds(h, m2.context);
    assert Cycle().condition != "";
    assert IndexOf(steps, 0) == Some(0);
  }

  lemma BodyWorks(h: Host, op: Operator, m: Machine)
    requires forall x :: op(x, Cycle()).Done?
    ensures Body(h, op, m, Cycle()).Done?
  {
    var step := Cycle();
    var items: seq<Option<Value>> := [None];
    assert Items(h, m.context, step) == Ok(items);
    var o := Iteration(op, m, step, None);
    assert o.Done?;
    assert Iterations(op, o.m, step, items[1..]) == Done(o.m, []);
    assert Iterations(op, m, step, items).Done?;
  }

  ghost predicate Returns(visit: Visitor) {
    forall m :: visit(m, 0).Done? && visit(m, 0).value == Some(0)
  }

  lemma {:induction false} ReturnsForever(steps: seq<Step>, visit: Visitor, m: Machine, bound: nat)
    requires |steps| == 1 && Lands(visit, 1) && Returns(visit)
    ensures Steps(steps, visit, m, Some(0), bound).CutOff?
    decreases bound
  {
    if bound > 0 {
      ReturnsForever(steps, visit, visit(m, 0).m, bound - 1);
    }
  }

  /** Validation admits backward branches: this workflow is accepted, all its external calls
      return, and no number of visits ends it. */
  lemma BackwardNeverEnds(h: Host, env: Services, clock: nat, bound: nat)
    requires h.provider(Str("mock")) && AlwaysAnswers(env)
    ensures Validator.WellFormed(h, [Cycle()]) && !Acyclic([Cycle()]) && Trap([Cycle()], {0})
    ensures Execute([Cycle()], VisitorOf(h, Operations(h, env), [Cycle()]), clock, bound).CutOff?
  {
    var steps := [Cycle()];
    var op := Operations(h, env);
    var visit := VisitorOf(h, op, steps);
    CycleAccepted(h);
    forall x
      ensures op(x, Cycle()).Done?
    {
      TextWorks(h, env, x, Cycle());
    }
    forall m
      ensures visit(m, 0).Done? && visit(m, 0).value == Some(0)
    {
      CycleReturns(h, op, m);
    }
    ReturnsForever(steps, visit, Start(Fresh(clock)), bound);
  }

  lemma CycleAccepted(h: Host)
    ensures Validator.WellFormed(h, [Cycle()]) && !Acyclic([Cycle()]) && Trap([Cycle()], {0})
  {
    var steps := [Cycle()];
    var known := Validator.Identifiers(h, steps);
    Letter(h, "x");
    CleanAsking(h, known, Cycle(), "x");
    Letter(h, "a");
    assert !Conditions.HasOperator("a");
    Conditions.PrintParse(h, ALWAYS);
    NoRefs(h, Conditions.Print(ALWAYS));
    assert steps[0].id in Validator.StepIds(steps);
    assert Edge(steps, 0, 0);
    var path: seq<nat> := [0, 0];
    assert IsPath(steps, path) && path[0] == path[1];
  }

  /** A step without prompt whose name reads like a reference to nothing. */
  const NAMED := Step(0, "{{b}}", "ai", 0, Some([]), "", None, None, "", "")

  lemma NamedAccepted(h: Host)
    ensures Validator.WellFormed(h, [NAMED])
  {
  }

  /** One of the two templates that escape the validator, with an identifier it does not know. */
  lemma Unchecked(h: Host, known: set<string>, config: Config, name: string, template: string, id: string)
    requires Validator.CleanConfig(h, known, config) && id !in known && |id| == 1
    requires Reference(id, None) in RefsIn(h, Strip(h, template))
    requires (Validator.NameIsPrompt(config) && template == name)
             || (Validator.PrintedPrompt(config) && template == h.show(Get(config, "prompt").value))
    ensures !Validator.AllAllowed(Validator.InConfig, known, Prompts.Queried(h, config, name))
  {
    assert |"item"| == 4;
    assert !Validator.Allowed(Validator.InConfig, known, Reference(id, None).id);
    Validator.ComposedQueriesChecked(h, known, config, name);
  }

  /** The validator accepts it, and composing its prompt queries an identifier it never saw. */
  lemma NameIsNotValidated(h: Host)
    requires h.show(Id(0)) != "b"
    ensures Validator.WellFormed(h, [NAMED])
    ensures !Validator.AllAllowed(Validator.InConfig, Validator.Identifiers(h, [NAMED]), Prompts.Queried(h, ConfigOf(NAMED), NAMED.name))
  {
    LetterReference(h, 'b');
    assert "{{" + ['b'] + "}}" == NAMED.name && |NAMED.name| == 5;
    NamedAccepted(h);
    Unchecked(h, Validator.Identifiers(h, [NAMED]), [], NAMED.name, NAMED.name, "b");
  }

  /** A step whose prompt is a dictionary with a key that reads like a reference to nothing. */
  const KEYED := Asking(0, "a", 0, Dict([Field("{{b}}", Str("x"))]))

  const SHOWN := "{'{{b}}': 'x'}"

  lemma ShownReads(h: Host)
    ensures Strip(h, SHOWN) == SHOWN && Reference("b", None) in RefsIn(h, SHOWN)
  {
    StripTrimmed(h, SHOWN);
    var tail := "': 'x'}";
    assert SHOWN == "{'" + ("{{b}}" + tail);
    BehindQuote(h, "{{b}}" + tail);
    LetterReference(h, 'b');
    assert "{{" + ['b'] + "}}" == "{{b}}";
    RefsPrefix(h, "{{b}}", tail);
    assert RefsIn(h, "{{b}}" + tail)[0] == Reference("b", None);
  }

  /** A single brace begins no reference. */
  lemma BehindQuote(h: Host, t: string)
    ensures RefsIn(h, "{'" + t) == RefsIn(h, t)
  {
    var s := "{'" + t;
    RefsStep(h, s);
    RefsStep(h, s[1..]);
    assert s[1..][1..] == t;
  }

  lemma KeyedAccepted(h: Host)
    ensures Validator.WellFormed(h, [KEYED])
    ensures Validator.CleanConfig(h, Validator.Identifiers(h, [KEYED]), ConfigOf(KEYED))
  {
    Letter(h, "x");
  }

  /** The validator accepts it, as it looks at values only; but the template is str() of the
      dictionary, and composing it queries an identifier that the validator never saw. */
  lemma KeyIsNotValidated(h: Host)
    requires h.show(Id(0)) != "b" && h.show(Dict([Field("{{b}}", Str("x"))])) == SHOWN
    ensures Validator.WellFormed(h, [KEYED])
    ensures !Validator.AllAllowed(Validator.InConfig, Validator.Identifiers(h, [KEYED]), Prompts.Queried(h, ConfigOf(KEYED), KEYED.name))
  {
    KeyedAccepted(h);
    ConfigOfAsking(h, KEYED, Dict([Field("{{b}}", Str("x"))]));
    ShownReads(h);
    assert "a" != "b";
    Unchecked(h, Validator.Identifiers(h, [KEYED]), ConfigOf(KEYED), KEYED.name, SHOWN, "b");
  }

  // ----- an error text that does not fit -----

  /** A provider that always raises with this text. */
  ghost predicate AlwaysRaises(env: Services, reason: string) {
    forall n :: env.text(n) == Err(reason)
  }

  lemma TextRaises(h: Host, env: Services, reason: string, m: Machine)
    requires h.provider(Str("mock")) && AlwaysRaises(env, reason)
    ensures var o := Operations(h, env)(m, PLAIN); o.Raised? && o.error == CallFailed(reason) && o.m.job == m.job
  {
    ConfigOfAsking(h, PLAIN, Str("x"));
    assert Operations(h, env)(m, PLAIN) == TextOperation(h, env, m, PLAIN);
    Letter(h, "x");
    AskingQueries(h, PLAIN, "x");
    Prompts.BuildSucceeds(h, m.context, ConfigOf(PLAIN), "a");
  }

  lemma VisitRaises(h: Host, op: Operator, reason: string, m: Machine)
    requires forall x :: op(x, PLAIN).Raised? && op(x, PLAIN).error == CallFailed(reason) && op(x, PLAIN).m.job == x.job
    ensures var o := Visit(h, op, [PLAIN], m, 0); o.Raised? && o.error == CallFailed(reason) && o.m.job.Some?
  {
    var m1 := OpenVisit(m, PLAIN);
    assert Items(h, m1.context, PLAIN) == Ok([None]);
    assert Iteration(op, m1, PLAIN, None).Raised?;
    assert Iterations(op, m1, PLAIN, [None]).Raised?;
  }

  /** The validator accepts this workflow, and its provider raises a text. Up to 485 characters
      the run returns as a failure. A longer text raises out of the handler: past 1000
      characters with the execution and the job left RUNNING and no row to tell of the error,
      otherwise with both FAILED, and in either case without metrics. */
  lemma LongErrorEscapes(h: Host, env: Services, reason: string, clock: nat, bound: nat)
    requires h.provider(Str("mock")) && AlwaysRaises(env, reason) && bound > 0
    ensures var run := Execute([PLAIN], VisitorOf(h, Operations(h, env), [PLAIN]), clock, bound);
            && run != RunCompleted(run.m) && run.m.job.Some?
            && (run.RunFailed? <==> |reason| <= 485) && (run.RunEscaped? <==> |reason| > 485)
            && (|reason| > 485 ==> NoMetrics(run.m.log) && (NoErrors(run.m.log) <==> |reason| > 1000))
            && ExecutionNow(run.m.log) == Some(if |reason| > 1000 then Running else Failed)
            && JobNow(run.m.log, run.m.job.value) == Some(if |reason| > 1000 then Running else Failed)
  {
    var steps := [PLAIN];
    var op := Operations(h, env);
    forall x
      ensures op(x, PLAIN).Raised? && op(x, PLAIN).error == CallFailed(reason) && op(x, PLAIN).m.job == x.job
    {
      TextRaises(h, env, reason, x);
    }
    var m := Start(Fresh(clock));
    VisitRaises(h, op, reason, m);
    HandleKeeps(Visit(h, op, steps, m, 0).m, PLAIN, 0, CallFailed(reason));
    FailureReturnsIff(h, env, steps, clock, bound);
    assert |HistoryText(PLAIN, CallFailed(reason))| == 15 + |reason|;
  }
}
