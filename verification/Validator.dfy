/** WorkflowValidator of apps/api/workflow/validator.py. */
module Validator {
  import opened Values
  import opened Sequences
  import opened References
  import Conditions
  import Prompts
  import opened Workflows

  datatype ValidationError =
    | NoSteps
    | NotOrdered
    | DuplicateOrder
    | BadCondition(step: string)
    | UnknownInCondition(step: string, id: string)
    | BadTargetOnTrue(step: string)
    | BadTargetOnFalse(step: string)
    | NoLoopVariable(step: string)
    | BadLoopSource(step: string)
    | UnknownInLoop(step: string, id: string)
    | UnknownInConfig(step: string, id: string)
    | NoName(index: nat)
    | NoType(index: nat)
    | NullConfig(index: nat)

  // ----- what is reported -----

  function StepIds(steps: seq<Step>): set<nat> {
    set i | 0 <= i < |steps| :: steps[i].id
  }

  /** Every name and every printed id. */
  function Identifiers(h: Host, steps: seq<Step>): set<string> {
    (set i | 0 <= i < |steps| :: Key(h, steps[i])) + (set i | 0 <= i < |steps| :: steps[i].name)
  }

  datatype Place = InCondition | InLoop | InConfig

  function Unknown(place: Place, step: string, id: string): ValidationError {
    match place
    case InCondition => UnknownInCondition(step, id)
    case InLoop => UnknownInLoop(step, id)
    case InConfig => UnknownInConfig(step, id)
  }

  /** item is accepted everywhere but in a loop source. */
  predicate Allowed(place: Place, known: set<string>, id: string) {
    id in known || (id == "item" && place != InLoop)
  }

  function RefErrors(place: Place, known: set<string>, step: string, refs: seq<Reference>): seq<ValidationError> {
    if refs == [] then []
    else (if Allowed(place, known, refs[0].id) then [] else [Unknown(place, step, refs[0].id)])
         + RefErrors(place, known, step, refs[1..])
  }

  function ValueErrors(h: Host, known: set<string>, step: string, v: Value): seq<ValidationError>
    decreases v
  {
    match v
    case Str(s) => RefErrors(InConfig, known, step, RefsIn(h, s))
    case Dict(fields) => FieldErrors(h, known, step, fields)
    case List(items) => ItemErrors(h, known, step, items)
    case _ => []
  }

  function ItemErrors(h: Host, known: set<string>, step: string, items: seq<Value>): seq<ValidationError>
    decreases items
  {
    if items == [] then []
    else ValueErrors(h, known, step, items[0]) + ItemErrors(h, known, step, items[1..])
  }

  function FieldErrors(h: Host, known: set<string>, step: string, fields: seq<Field>): seq<ValidationError>
    decreases fields
  {
    if fields == [] then []
    else ValueErrors(h, known, step, fields[0].value) + FieldErrors(h, known, step, fields[1..])
  }

  function When(wrong: bool, e: ValidationError): seq<ValidationError> {
    if wrong then [e] else []
  }

  function ConditionErrors(h: Host, ids: set<nat>, known: set<string>, step: Step): seq<ValidationError> {
    if step.condition == "" then []
    else
      When(Conditions.Parse(h, Strip(h, step.condition)).None?, BadCondition(step.name))
      + RefErrors(InCondition, known, step.name, RefsIn(h, step.condition))
      + When(step.onTrue.Some? && step.onTrue.value !in ids, BadTargetOnTrue(step.name))
      + When(step.onFalse.Some? && step.onFalse.value !in ids, BadTargetOnFalse(step.name))
  }

  function LoopErrors(h: Host, known: set<string>, step: Step): seq<ValidationError> {
    if !Looping(step) then []
    else
      When(step.loopVariable == "", NoLoopVariable(step.name))
      + When(RefsIn(h, step.loopSource) == [], BadLoopSource(step.name))
      + RefErrors(InLoop, known, step.name, RefsIn(h, step.loopSource))
  }

  function StepErrors(h: Host, ids: set<nat>, known: set<string>, step: Step): seq<ValidationError> {
    ConditionErrors(h, ids, known, step) + LoopErrors(h, known, step)
    + FieldErrors(h, known, step.name, ConfigOf(step))
  }

  function RequiredErrors(index: nat, step: Step): seq<ValidationError> {
    When(step.name == "", NoName(index))
    + When(step.stepType == "", NoType(index))
    + When(step.config.None?, NullConfig(index))
  }

  predicate Nondecreasing(steps: seq<Step>) {
    forall i, j :: 0 <= i < j < |steps| ==> steps[i].order <= steps[j].order
  }

  predicate DistinctOrders(steps: seq<Step>) {
    forall i, j :: 0 <= i < j < |steps| ==> steps[i].order != steps[j].order
  }

  function ListErrors(steps: seq<Step>): seq<ValidationError> {
    When(steps == [], NoSteps)
    + When(!Nondecreasing(steps), NotOrdered)
    + When(!DistinctOrders(steps), DuplicateOrder)
  }

  /** The reports of all steps, in step order. */
  function Gather(steps: seq<Step>, report: (nat, Step) -> seq<ValidationError>): seq<ValidationError> {
    if steps == [] then []
    else Gather(steps[..|steps| - 1], report) + report(|steps| - 1, steps[|steps| - 1])
  }

  function StepReport(h: Host, ids: set<nat>, known: set<string>): (nat, Step) -> seq<ValidationError> {
    (i: nat, step: Step) => StepErrors(h, ids, known, step)
  }

  function RequiredReport(): (nat, Step) -> seq<ValidationError> {
    (i: nat, step: Step) => RequiredErrors(i, step)
  }

  function Errors(h: Host, steps: seq<Step>): seq<ValidationError> {
    ListErrors(steps)
    + Gather(steps, StepReport(h, StepIds(steps), Identifiers(h, steps)))
    + Gather(steps, RequiredReport())
  }

  // ----- the imperative validator -----

  /** The errors list that all parts of the validator append to. */
  class ErrorList {
    var errors: seq<ValidationError>

    constructor ()
      ensures errors == []
    {
      errors := [];
    }

    method Append(e: ValidationError)
      modifies this
      ensures errors == old(errors) + [e]
    {
      errors := errors + [e];
    }

    method AppendWhen(wrong: bool, e: ValidationError)
      modifies this
      ensures errors == old(errors) + When(wrong, e)
    {
      if wrong {
        Append(e);
      }
    }
  }

  lemma RefErrorsStep(place: Place, known: set<string>, step: string, refs: seq<Reference>, i: nat, before: seq<ValidationError>)
    requires i < |refs|
    ensures before + RefErrors(place, known, step, refs[i..]) ==
              (if Allowed(place, known, refs[i].id) then before else before + [Unknown(place, step, refs[i].id)])
              + RefErrors(place, known, step, refs[i + 1..])
  {
    assert refs[i..][1..] == refs[i + 1..];
    if !Allowed(place, known, refs[i].id) {
      Associate(before, [Unknown(place, step, refs[i].id)], RefErrors(place, known, step, refs[i + 1..]));
    }
  }

  method CheckReferences(h: Host, place: Place, known: set<string>, step: string, text: string, list: ErrorList)
    modifies list
    ensures list.errors == old(list.errors) + RefErrors(place, known, step, RefsIn(h, text))
  {
    var refs := RefsIn(h, text);
    for i := 0 to |refs|
      invariant list.errors + RefErrors(place, known, step, refs[i..]) ==
                old(list.errors) + RefErrors(place, known, step, refs)
    {
      RefErrorsStep(place, known, step, refs, i, list.errors);
      if !Allowed(place, known, refs[i].id) {
        list.Append(Unknown(place, step, refs[i].id));
      }
    }
    assert refs[|refs|..] == [];
  }

  lemma ItemErrorsStep(h: Host, known: set<string>, step: string, items: seq<Value>, i: nat, before: seq<ValidationError>)
    requires i < |items|
    ensures before + ItemErrors(h, known, step, items[i..]) ==
              before + ValueErrors(h, known, step, items[i]) + ItemErrors(h, known, step, items[i + 1..])
  {
    assert items[i..][1..] == items[i + 1..];
    Associate(before, ValueErrors(h, known, step, items[i]), ItemErrors(h, known, step, items[i + 1..]));
  }

  lemma FieldErrorsStep(h: Host, known: set<string>, step: string, fields: seq<Field>, i: nat, before: seq<ValidationError>)
    requires i < |fields|
    ensures before + FieldErrors(h, known, step, fields[i..]) ==
              before + ValueErrors(h, known, step, fields[i].value) + FieldErrors(h, known, step, fields[i + 1..])
  {
    assert fields[i..][1..] == fields[i + 1..];
    Associate(before, ValueErrors(h, known, step, fields[i].value), FieldErrors(h, known, step, fields[i + 1..]));
  }

  /** check_val: strings are scanned, dictionaries and lists are descended into. */
  method CheckValue(h: Host, known: set<string>, step: string, v: Value, list: ErrorList)
    modifies list
    ensures list.errors == old(list.errors) + ValueErrors(h, known, step, v)
    decreases v, 0
  {
    match v
    case Str(s) => CheckReferences(h, InConfig, known, step, s, list);
    case Dict(fields) => ValidateConfigVariables(h, known, step, fields, list);
    case List(items) => CheckItems(h, known, step, items, list);
    case _ =>
  }

  method CheckItems(h: Host, known: set<string>, step: string, items: seq<Value>, list: ErrorList)
    modifies list
    ensures list.errors == old(list.errors) + ItemErrors(h, known, step, items)
    decreases items, 1
  {
    for i := 0 to |items|
      invariant list.errors + ItemErrors(h, known, step, items[i..]) ==
                old(list.errors) + ItemErrors(h, known, step, items)
    {
      ItemErrorsStep(h, known, step, items, i, list.errors);
      CheckValue(h, known, step, items[i], list);
    }
    assert items[|items|..] == [];
  }

  method ValidateConfigVariables(h: Host, known: set<string>, step: string, fields: seq<Field>, list: ErrorList)
    modifies list
    ensures list.errors == old(list.errors) + FieldErrors(h, known, step, fields)
    decreases fields, 1
  {
    for i := 0 to |fields|
      invariant list.errors + FieldErrors(h, known, step, fields[i..]) ==
                old(list.errors) + FieldErrors(h, known, step, fields)
    {
      FieldErrorsStep(h, known, step, fields, i, list.errors);
      CheckValue(h, known, step, fields[i].value, list);
    }
    assert fields[|fields|..] == [];
  }

  lemma Regroup<T>(a: seq<T>, b: seq<T>, c: seq<T>, d: seq<T>)
    ensures a + b + c + d == a + (b + c + d)
  {
  }

  lemma RegroupFour<T>(a: seq<T>, b: seq<T>, c: seq<T>, d: seq<T>, e: seq<T>)
    ensures a + b + c + d + e == a + (b + c + d + e)
  {
  }

  method CheckCondition(h: Host, ids: set<nat>, known: set<string>, step: Step, list: ErrorList)
    modifies list
    ensures list.errors == old(list.errors) + ConditionErrors(h, ids, known, step)
  {
    if step.condition != "" {
      var syntax := Conditions.Parse(h, Strip(h, step.condition)).None?;
      var noTrue := step.onTrue.Some? && step.onTrue.value !in ids;
      var noFalse := step.onFalse.Some? && step.onFalse.value !in ids;
      list.AppendWhen(syntax, BadCondition(step.name));
      CheckReferences(h, InCondition, known, step.name, step.condition, list);
      list.AppendWhen(noTrue, BadTargetOnTrue(step.name));
      list.AppendWhen(noFalse, BadTargetOnFalse(step.name));
      RegroupFour(old(list.errors), When(syntax, BadCondition(step.name)),
                  RefErrors(InCondition, known, step.name, RefsIn(h, step.condition)),
                  When(noTrue, BadTargetOnTrue(step.name)), When(noFalse, BadTargetOnFalse(step.name)));
    }
  }

  method CheckLoop(h: Host, known: set<string>, step: Step, list: ErrorList)
    modifies list
    ensures list.errors == old(list.errors) + LoopErrors(h, known, step)
  {
    if Looping(step) {
      var literal := RefsIn(h, step.loopSource) == [];
      list.AppendWhen(step.loopVariable == "", NoLoopVariable(step.name));
      list.AppendWhen(literal, BadLoopSource(step.name));
      if !literal {
        CheckReferences(h, InLoop, known, step.name, step.loopSource, list);
      }
      Regroup(old(list.errors), When(step.loopVariable == "", NoLoopVariable(step.name)),
              When(literal, BadLoopSource(step.name)), RefErrors(InLoop, known, step.name, RefsIn(h, step.loopSource)));
    }
  }

  method CheckStep(h: Host, ids: set<nat>, known: set<string>, index: nat, step: Step, list: ErrorList)
    modifies list
    ensures list.errors == old(list.errors) + StepReport(h, ids, known)(index, step)
  {
    CheckCondition(h, ids, known, step, list);
    CheckLoop(h, known, step, list);
    ValidateConfigVariables(h, known, step.name, ConfigOf(step), list);
    Regroup(old(list.errors), ConditionErrors(h, ids, known, step), LoopErrors(h, known, step),
            FieldErrors(h, known, step.name, ConfigOf(step)));
  }

  method CheckRequired(index: nat, step: Step, list: ErrorList)
    modifies list
    ensures list.errors == old(list.errors) + RequiredErrors(index, step)
  {
    list.AppendWhen(step.name == "", NoName(index));
    list.AppendWhen(step.stepType == "", NoType(index));
    list.AppendWhen(step.config.None?, NullConfig(index));
  }

  lemma GatherNext(steps: seq<Step>, i: nat, report: (nat, Step) -> seq<ValidationError>)
    requires i < |steps|
    ensures Gather(steps[..i + 1], report) == Gather(steps[..i], report) + report(i, steps[i])
  {
    assert steps[..i + 1][..i] == steps[..i];
  }

  method CheckSteps(h: Host, ids: set<nat>, known: set<string>, steps: seq<Step>, list: ErrorList)
    modifies list
    ensures list.errors == old(list.errors) + Gather(steps, StepReport(h, ids, known))
  {
    ghost var report := StepReport(h, ids, known);
    for i := 0 to |steps|
      invariant list.errors == old(list.errors) + Gather(steps[..i], report)
    {
      CheckStep(h, ids, known, i, steps[i], list);
      GatherNext(steps, i, report);
      Associate(old(list.errors), Gather(steps[..i], report), report(i, steps[i]));
    }
    assert steps[..|steps|] == steps;
  }

  method CheckAllRequired(steps: seq<Step>, list: ErrorList)
    modifies list
    ensures list.errors == old(list.errors) + Gather(steps, RequiredReport())
  {
    ghost var report := RequiredReport();
    for i := 0 to |steps|
      invariant list.errors == old(list.errors) + Gather(steps[..i], report)
    {
      CheckRequired(i, steps[i], list);
      GatherNext(steps, i, report);
    }
    assert steps[..|steps|] == steps;
  }

  /** WorkflowValidator.validate */
  method Validate(h: Host, steps: seq<Step>) returns (valid: bool, errors: seq<ValidationError>)
    ensures errors == Errors(h, steps)
    ensures valid <==> WellFormed(h, steps)
  {
    var list := new ErrorList();
    list.AppendWhen(steps == [], NoSteps);
    list.AppendWhen(!Nondecreasing(steps), NotOrdered);
    list.AppendWhen(!DistinctOrders(steps), DuplicateOrder);
    CheckSteps(h, StepIds(steps), Identifiers(h, steps), steps, list);
    CheckAllRequired(steps, list);
    errors := list.errors;
    valid := |errors| == 0;
    NoErrorsIffWellFormed(h, steps);
  }

  // ----- what acceptance means -----

  /** s occurs as a string somewhere inside v. */
  ghost predicate Contains(v: Value, s: string)
    decreases v
  {
    match v
    case Str(t) => t == s
    case List(items) => exists i :: 0 <= i < |items| && Contains(items[i], s)
    case Dict(fields) => exists i :: 0 <= i < |fields| && Contains(fields[i].value, s)
    case _ => false
  }

  ghost predicate AllAllowed(place: Place, known: set<string>, refs: seq<Reference>) {
    forall r :: r in refs ==> Allowed(place, known, r.id)
  }

  ghost predicate CleanValue(h: Host, known: set<string>, v: Value) {
    forall s :: Contains(v, s) ==> AllAllowed(InConfig, known, RefsIn(h, s))
  }

  ghost predicate CleanConfig(h: Host, known: set<string>, config: Config) {
    forall i :: 0 <= i < |config| ==> CleanValue(h, known, config[i].value)
  }

  ghost predicate CleanStep(h: Host, ids: set<nat>, known: set<string>, step: Step) {
    && (step.condition != "" ==>
          && Conditions.Parse(h, Strip(h, step.condition)).Some?
          && AllAllowed(InCondition, known, RefsIn(h, step.condition))
          && (step.onTrue.Some? ==> step.onTrue.value in ids)
          && (step.onFalse.Some? ==> step.onFalse.value in ids))
    && (Looping(step) ==>
          && step.loopVariable != ""
          && RefsIn(h, step.loopSource) != []
          && AllAllowed(InLoop, known, RefsIn(h, step.loopSource)))
    && CleanConfig(h, known, ConfigOf(step))
    && step.name != "" && step.stepType != "" && step.config.Some?
  }

  /** The workflows that validation accepts. */
  ghost predicate WellFormed(h: Host, steps: seq<Step>) {
    && steps != []
    && (forall i, j :: 0 <= i < j < |steps| ==> steps[i].order < steps[j].order)
    && (forall i :: 0 <= i < |steps| ==> CleanStep(h, StepIds(steps), Identifiers(h, steps), steps[i]))
  }

  lemma {:induction false} RefErrorsEmpty(place: Place, known: set<string>, step: string, refs: seq<Reference>)
    ensures RefErrors(place, known, step, refs) == [] <==> AllAllowed(place, known, refs)
  {
    if refs != [] {
      RefErrorsEmpty(place, known, step, refs[1..]);
      assert forall r :: r in refs <==> r == refs[0] || r in refs[1..];
    }
  }

  lemma {:induction false} ValueErrorsEmpty(h: Host, known: set<string>, step: string, v: Value)
    ensures ValueErrors(h, known, step, v) == [] <==> CleanValue(h, known, v)
    decreases v
  {
    match v
    case Str(s) =>
      RefErrorsEmpty(InConfig, known, step, RefsIn(h, s));
      assert Contains(v, s);
    case Dict(fields) =>
      FieldErrorsEmpty(h, known, step, fields);
      forall i, s | 0 <= i < |fields| && Contains(fields[i].value, s)
        ensures Contains(v, s)
      {
      }
    case List(items) =>
      ItemErrorsEmpty(h, known, step, items);
      forall i, s | 0 <= i < |items| && Contains(items[i], s)
        ensures Contains(v, s)
      {
      }
    case _ =>
  }

  lemma {:induction false} ItemErrorsEmpty(h: Host, known: set<string>, step: string, items: seq<Value>)
    ensures ItemErrors(h, known, step, items) == [] <==> forall i :: 0 <= i < |items| ==> CleanValue(h, known, items[i])
    decreases items
  {
    if items != [] {
      ValueErrorsEmpty(h, known, step, items[0]);
      ItemErrorsEmpty(h, known, step, items[1..]);
      assert forall i :: 1 <= i < |items| ==> items[i] == items[1..][i - 1];
    }
  }

  lemma {:induction false} FieldErrorsEmpty(h: Host, known: set<string>, step: string, fields: seq<Field>)
    ensures FieldErrors(h, known, step, fields) == [] <==> CleanConfig(h, known, fields)
    decreases fields
  {
    if fields != [] {
      ValueErrorsEmpty(h, known, step, fields[0].value);
      FieldErrorsEmpty(h, known, step, fields[1..]);
      assert forall i :: 1 <= i < |fields| ==> fields[i] == fields[1..][i - 1];
    }
  }

  lemma StepErrorsEmpty(h: Host, ids: set<nat>, known: set<string>, index: nat, step: Step)
    ensures StepErrors(h, ids, known, step) == [] && RequiredErrors(index, step) == [] <==> CleanStep(h, ids, known, step)
  {
    RefErrorsEmpty(InCondition, known, step.name, RefsIn(h, step.condition));
    RefErrorsEmpty(InLoop, known, step.name, RefsIn(h, step.loopSource));
    FieldErrorsEmpty(h, known, step.name, ConfigOf(step));
  }

  lemma {:induction false} GatherEmpty(steps: seq<Step>, report: (nat, Step) -> seq<ValidationError>)
    ensures Gather(steps, report) == [] <==> forall i :: 0 <= i < |steps| ==> report(i, steps[i]) == []
  {
    if steps != [] {
      var before := steps[..|steps| - 1];
      GatherEmpty(before, report);
      assert Gather(steps, report) == [] <==> Gather(before, report) == [] && report(|steps| - 1, steps[|steps| - 1]) == [];
      assert forall i :: 0 <= i < |before| ==> before[i] == steps[i];
    }
  }

  /** Validation reports nothing exactly for the well-formed workflows. */
  lemma NoErrorsIffWellFormed(h: Host, steps: seq<Step>)
    ensures Errors(h, steps) == [] <==> WellFormed(h, steps)
  {
    var ids, known := StepIds(steps), Identifiers(h, steps);
    GatherEmpty(steps, StepReport(h, ids, known));
    GatherEmpty(steps, RequiredReport());
    forall i | 0 <= i < |steps|
      ensures CleanStep(h, ids, known, steps[i]) <==>
                StepReport(h, ids, known)(i, steps[i]) == [] && RequiredReport()(i, steps[i]) == []
    {
      StepErrorsEmpty(h, ids, known, i, steps[i]);
    }
    IncreasingOrders(steps);
  }

  lemma IncreasingOrders(steps: seq<Step>)
    ensures Nondecreasing(steps) && DistinctOrders(steps) <==>
              forall i, j :: 0 <= i < j < |steps| ==> steps[i].order < steps[j].order
  {
  }

  // ----- validator and runtime see the same references -----

  lemma {:induction false} GetContained(config: Config, key: string)
    requires Get(config, key).Some?
    ensures exists i :: 0 <= i < |config| && config[i].value == Get(config, key).value
  {
    if config[0].key != key {
      GetContained(config[1..], key);
      var i :| 0 <= i < |config[1..]| && config[1..][i].value == Get(config, key).value;
      assert config[i + 1].value == Get(config, key).value;
    }
  }

  /** Every identifier that a configured textual prompt queries at run time is one that the
      validator checked. */
  lemma PromptQueriesChecked(h: Host, known: set<string>, config: Config, key: string, text: string, ref: Reference)
    requires CleanConfig(h, known, config)
    requires Get(config, key) == Some(Str(text)) && ref in RefsIn(h, Strip(h, text))
    ensures Allowed(InConfig, known, ref.id)
  {
    GetContained(config, key);
    var i :| 0 <= i < |config| && config[i].value == Str(text);
    RefsStripped(h, text);
    assert Contains(config[i].value, text);
    assert ref in RefsIn(h, text);
  }

  /** Without a prompt the step's name is the template. */
  predicate NameIsPrompt(config: Config) {
    Get(config, "prompt").None? || !Truthy(Get(config, "prompt").value)
  }

  /** A value that becomes a template as a whole: the validator only looks at the texts in it. */
  predicate PrintedPrompt(config: Config) {
    !NameIsPrompt(config) && !Get(config, "prompt").value.Str?
  }

  predicate PrintedSystem(config: Config) {
    Get(config, "system_prompt").Some? && Get(config, "system_prompt").value != Null && !Get(config, "system_prompt").value.Str?
  }

  /** What the template refers to was checked by the validator. */
  ghost predicate TemplateChecked(h: Host, known: set<string>, template: string) {
    AllAllowed(InConfig, known, RefsIn(h, Strip(h, template)))
  }

  lemma TextChecked(h: Host, known: set<string>, config: Config, key: string)
    requires CleanConfig(h, known, config) && Get(config, key).Some? && Get(config, key).value.Str?
    ensures TemplateChecked(h, known, h.show(Get(config, key).value))
  {
    var text := Get(config, key).value.s;
    forall ref | ref in RefsIn(h, Strip(h, text))
      ensures Allowed(InConfig, known, ref.id)
    {
      PromptQueriesChecked(h, known, config, key, text, ref);
    }
  }

  lemma UserChecked(h: Host, known: set<string>, config: Config, name: string)
    requires CleanConfig(h, known, config)
    ensures TemplateChecked(h, known, Prompts.UserText(h, config, name)) <==>
              && (NameIsPrompt(config) ==> TemplateChecked(h, known, name))
              && (PrintedPrompt(config) ==> TemplateChecked(h, known, h.show(Get(config, "prompt").value)))
  {
    if !NameIsPrompt(config) && !PrintedPrompt(config) {
      TextChecked(h, known, config, "prompt");
    }
  }

  lemma SystemChecked(h: Host, known: set<string>, config: Config)
    requires CleanConfig(h, known, config) && Prompts.SystemText(h, config).Some?
    ensures TemplateChecked(h, known, Prompts.SystemText(h, config).value) <==>
              (PrintedSystem(config) ==> TemplateChecked(h, known, h.show(Get(config, "system_prompt").value)))
  {
    if !PrintedSystem(config) {
      TextChecked(h, known, config, "system_prompt");
    }
  }

  lemma AllAllowedJoins(place: Place, known: set<string>, a: seq<Reference>, b: seq<Reference>)
    ensures AllAllowed(place, known, a + b) <==> AllAllowed(place, known, a) && AllAllowed(place, known, b)
  {
    assert forall r :: r in a + b <==> r in a || r in b;
  }

  /** Composing the prompts of a step with a validated configuration queries only identifiers
      that the validator checked, with two exceptions, and exactly when these do no harm: the
      step's name as a template, since names are not validated as templates, and a prompt that
      is not a text, since str() of it shows the keys of its dictionaries too. */
  lemma ComposedQueriesChecked(h: Host, known: set<string>, config: Config, name: string)
    requires CleanConfig(h, known, config)
    ensures AllAllowed(InConfig, known, Prompts.Queried(h, config, name)) <==>
              && (NameIsPrompt(config) ==> TemplateChecked(h, known, name))
              && (PrintedPrompt(config) ==> TemplateChecked(h, known, h.show(Get(config, "prompt").value)))
              && (PrintedSystem(config) ==> TemplateChecked(h, known, h.show(Get(config, "system_prompt").value)))
  {
    UserChecked(h, known, config, name);
    var user := RefsIn(h, Strip(h, Prompts.UserText(h, config, name)));
    match Prompts.SystemText(h, config)
    case None =>
      assert user + [] == user;
    case Some(text) =>
      SystemChecked(h, known, config);
      AllAllowedJoins(InConfig, known, user, RefsIn(h, Strip(h, text)));
  }

  /** Every identifier that a condition queries at run time is one that the validator checked. */
  lemma ConditionQueriesChecked(h: Host, ids: set<nat>, known: set<string>, step: Step, ref: Reference)
    requires CleanStep(h, ids, known, step) && ref in Conditions.Queried(h, step.condition)
    ensures Allowed(InCondition, known, ref.id)
  {
    Conditions.QueriedInText(h, step.condition);
    assert ref in RefsIn(h, step.condition);
  }
}
