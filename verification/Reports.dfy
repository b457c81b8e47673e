/** What a validation report names: every error stands for a defect, and every defect is reported. */
module Reports {
  import opened Values
  import opened References
  import Conditions
  import opened Workflows
  import opened Validator

  /** No step has this name or this printed id. */
  ghost predicate NobodysName(h: Host, steps: seq<Step>, id: string) {
    forall i :: 0 <= i < |steps| ==> steps[i].name != id && h.show(Id(steps[i].id)) != id
  }

  ghost predicate Mentions(h: Host, text: string, id: string) {
    exists r :: r in RefsIn(h, text) && r.id == id
  }

  /** Some text at any depth of a configuration value mentions the identifier. */
  ghost predicate ValueMentions(h: Host, v: Value, id: string) {
    exists s :: Contains(v, s) && Mentions(h, s, id)
  }

  ghost predicate ConfigMentions(h: Host, config: Config, id: string) {
    exists i :: 0 <= i < |config| && ValueMentions(h, config[i].value, id)
  }

  ghost predicate Nowhere(steps: seq<Step>, target: Option<nat>) {
    target.Some? && forall i :: 0 <= i < |steps| ==> steps[i].id != target.value
  }

  /** The defect of one step that an error with its name stands for. */
  ghost predicate StepDefect(h: Host, steps: seq<Step>, step: Step, e: ValidationError) {
    match e
    case BadCondition(_) => step.condition != "" && forall c :: !Conditions.IsCondition(h, Strip(h, step.condition), c)
    case UnknownInCondition(_, id) =>
      step.condition != "" && Mentions(h, step.condition, id) && NobodysName(h, steps, id) && id != "item"
    case BadTargetOnTrue(_) => step.condition != "" && Nowhere(steps, step.onTrue)
    case BadTargetOnFalse(_) => step.condition != "" && Nowhere(steps, step.onFalse)
    case NoLoopVariable(_) => step.loopSource != "" && step.loopVariable == ""
    case BadLoopSource(_) => step.loopSource != "" && RefsIn(h, step.loopSource) == []
    case UnknownInLoop(_, id) => step.loopSource != "" && Mentions(h, step.loopSource, id) && NobodysName(h, steps, id)
    case UnknownInConfig(_, id) =>
      step.config.Some? && ConfigMentions(h, step.config.value, id) && NobodysName(h, steps, id) && id != "item"
    case _ => false
  }

  /** The defects of the step list as a whole, and those of a step at its index. */
  ghost predicate ListDefect(steps: seq<Step>, e: ValidationError) {
    match e
    case NoSteps => steps == []
    case NotOrdered => exists i, j :: 0 <= i < j < |steps| && steps[i].order > steps[j].order
    case DuplicateOrder => exists i, j :: 0 <= i < j < |steps| && steps[i].order == steps[j].order
    case _ => false
  }

  predicate RequiredDefect(steps: seq<Step>, e: ValidationError) {
    match e
    case NoName(index) => index < |steps| && steps[index].name == ""
    case NoType(index) => index < |steps| && steps[index].stepType == ""
    case NullConfig(index) => index < |steps| && steps[index].config.None?
    case _ => false
  }

  /** The errors that carry a step's name. */
  predicate OfStep(e: ValidationError) {
    !e.NoSteps? && !e.NotOrdered? && !e.DuplicateOrder? && !e.NoName? && !e.NoType? && !e.NullConfig?
  }

  /** The defect of the workflow that an error stands for. */
  ghost predicate Defect(h: Host, steps: seq<Step>, e: ValidationError) {
    || ListDefect(steps, e) || RequiredDefect(steps, e)
    || (OfStep(e) && exists i :: 0 <= i < |steps| && steps[i].name == e.step && StepDefect(h, steps, steps[i], e))
  }

  // ----- members of the lists -----

  lemma {:induction false} RefMember(place: Place, known: set<string>, step: string, refs: seq<Reference>, e: ValidationError)
    ensures e in RefErrors(place, known, step, refs) <==>
              exists r :: r in refs && !Allowed(place, known, r.id) && e == Unknown(place, step, r.id)
  {
    if refs != [] {
      RefMember(place, known, step, refs[1..], e);
      assert forall r :: r in refs <==> r == refs[0] || r in refs[1..];
    }
  }

  lemma TextMember(h: Host, place: Place, known: set<string>, step: string, text: string, e: ValidationError)
    ensures e in RefErrors(place, known, step, RefsIn(h, text)) <==>
              exists id :: Mentions(h, text, id) && !Allowed(place, known, id) && e == Unknown(place, step, id)
  {
    RefMember(place, known, step, RefsIn(h, text), e);
    forall id | Mentions(h, text, id) && !Allowed(place, known, id) && e == Unknown(place, step, id)
      ensures e in RefErrors(place, known, step, RefsIn(h, text))
    {
      var r :| r in RefsIn(h, text) && r.id == id;
    }
    if e in RefErrors(place, known, step, RefsIn(h, text)) {
      var r :| r in RefsIn(h, text) && !Allowed(place, known, r.id) && e == Unknown(place, step, r.id);
      assert Mentions(h, text, r.id);
    }
  }

  /** An error about an identifier in a configuration. */
  predicate Blames(known: set<string>, step: string, id: string, e: ValidationError) {
    !Allowed(InConfig, known, id) && e == UnknownInConfig(step, id)
  }

  lemma {:induction false} ValueMember(h: Host, known: set<string>, step: string, v: Value, e: ValidationError)
    ensures e in ValueErrors(h, known, step, v) <==> exists id :: ValueMentions(h, v, id) && Blames(known, step, id, e)
    decreases v
  {
    match v
    case Str(s) =>
      TextMember(h, InConfig, known, step, s, e);
      forall id
        ensures ValueMentions(h, v, id) <==> Mentions(h, s, id)
      {
        assert Contains(v, s);
      }
    case Dict(fields) =>
      FieldMember(h, known, step, fields, e);
      forall id
        ensures ValueMentions(h, v, id) <==> ConfigMentions(h, fields, id)
      {
        DictMentions(h, v, id);
      }
    case List(items) =>
      ItemMember(h, known, step, items, e);
      forall id
        ensures ValueMentions(h, v, id) <==> exists i :: 0 <= i < |items| && ValueMentions(h, items[i], id)
      {
        ListMentions(h, v, id);
      }
    case _ =>
  }

  lemma DictMentions(h: Host, v: Value, id: string)
    requires v.Dict?
    ensures ValueMentions(h, v, id) <==> ConfigMentions(h, v.fields, id)
  {
    if ValueMentions(h, v, id) {
      var s :| Contains(v, s) && Mentions(h, s, id);
      var i :| 0 <= i < |v.fields| && Contains(v.fields[i].value, s);
      assert ValueMentions(h, v.fields[i].value, id);
    }
    if ConfigMentions(h, v.fields, id) {
      var i :| 0 <= i < |v.fields| && ValueMentions(h, v.fields[i].value, id);
      var s :| Contains(v.fields[i].value, s) && Mentions(h, s, id);
      assert Contains(v, s);
    }
  }

  lemma ListMentions(h: Host, v: Value, id: string)
    requires v.List?
    ensures ValueMentions(h, v, id) <==> exists i :: 0 <= i < |v.items| && ValueMentions(h, v.items[i], id)
  {
    if ValueMentions(h, v, id) {
      var s :| Contains(v, s) && Mentions(h, s, id);
      var i :| 0 <= i < |v.items| && Contains(v.items[i], s);
      assert ValueMentions(h, v.items[i], id);
    }
    if i :| 0 <= i < |v.items| && ValueMentions(h, v.items[i], id) {
      var s :| Contains(v.items[i], s) && Mentions(h, s, id);
      assert Contains(v, s);
    }
  }

  lemma {:induction false} ItemMember(h: Host, known: set<string>, step: string, items: seq<Value>, e: ValidationError)
    ensures e in ItemErrors(h, known, step, items) <==>
              exists i, id :: 0 <= i < |items| && ValueMentions(h, items[i], id) && Blames(known, step, id, e)
    decreases items
  {
    if items != [] {
      var rest := items[1..];
      ValueMember(h, known, step, items[0], e);
      ItemMember(h, known, step, rest, e);
      assert e in ItemErrors(h, known, step, items) <==> e in ValueErrors(h, known, step, items[0]) || e in ItemErrors(h, known, step, rest);
      assert forall i :: 1 <= i < |items| ==> items[i] == rest[i - 1];
      assert forall i :: 0 <= i < |rest| ==> rest[i] == items[i + 1];
    }
  }

  lemma {:induction false} FieldMember(h: Host, known: set<string>, step: string, fields: seq<Field>, e: ValidationError)
    ensures e in FieldErrors(h, known, step, fields) <==> exists id :: ConfigMentions(h, fields, id) && Blames(known, step, id, e)
    decreases fields
  {
    if fields != [] {
      var rest := fields[1..];
      ValueMember(h, known, step, fields[0].value, e);
      FieldMember(h, known, step, rest, e);
      assert e in FieldErrors(h, known, step, fields) <==>
               e in ValueErrors(h, known, step, fields[0].value) || e in FieldErrors(h, known, step, rest);
      forall id
        ensures ConfigMentions(h, fields, id) <==> ValueMentions(h, fields[0].value, id) || ConfigMentions(h, rest, id)
      {
        assert forall i :: 1 <= i < |fields| ==> fields[i] == rest[i - 1];
        assert forall i :: 0 <= i < |rest| ==> rest[i] == fields[i + 1];
      }
    }
  }

  lemma AllowedIsSomebodys(h: Host, steps: seq<Step>, place: Place, id: string)
    ensures Allowed(place, Identifiers(h, steps), id) <==> !NobodysName(h, steps, id) || (id == "item" && !place.InLoop?)
  {
    if i :| 0 <= i < |steps| && (steps[i].name == id || h.show(Id(steps[i].id)) == id) {
      assert Key(h, steps[i]) in Identifiers(h, steps) && steps[i].name in Identifiers(h, steps);
    }
  }

  lemma TargetIsNowhere(steps: seq<Step>, target: Option<nat>)
    ensures target.Some? && target.value !in StepIds(steps) <==> Nowhere(steps, target)
  {
    if target.Some? && !Nowhere(steps, target) {
      var i :| 0 <= i < |steps| && steps[i].id == target.value;
      assert steps[i].id in StepIds(steps);
    }
  }

  lemma SyntaxIsCondition(h: Host, text: string)
    ensures Conditions.Parse(h, text).None? <==> forall c :: !Conditions.IsCondition(h, text, c)
  {
    var parsed := Conditions.Parse(h, text);
    if parsed.Some? {
      Conditions.ParseIsRegex(h, text, parsed.value);
    }
    forall c
      ensures Conditions.IsCondition(h, text, c) <==> parsed == Some(c)
    {
      Conditions.ParseIsRegex(h, text, c);
    }
  }

  /** The errors of one step's condition. */
  lemma ConditionMember(h: Host, steps: seq<Step>, step: Step, e: ValidationError)
    ensures e in ConditionErrors(h, StepIds(steps), Identifiers(h, steps), step) <==>
              (e.BadCondition? || e.UnknownInCondition? || e.BadTargetOnTrue? || e.BadTargetOnFalse?)
              && e.step == step.name && StepDefect(h, steps, step, e)
  {
    if step.condition != "" {
      var known := Identifiers(h, steps);
      var syntax := Conditions.Parse(h, Strip(h, step.condition)).None?;
      var onTrue := step.onTrue.Some? && step.onTrue.value !in StepIds(steps);
      var onFalse := step.onFalse.Some? && step.onFalse.value !in StepIds(steps);
      ListedMember(step.name, syntax, RefErrors(InCondition, known, step.name, RefsIn(h, step.condition)), onTrue, onFalse, e);
      ReferenceMember(h, steps, step, e);
      OtherDefects(h, steps, step, e);
    }
  }

  lemma OtherDefects(h: Host, steps: seq<Step>, step: Step, e: ValidationError)
    requires step.condition != ""
    ensures e.BadCondition? ==> (StepDefect(h, steps, step, e) <==> Conditions.Parse(h, Strip(h, step.condition)).None?)
    ensures e.BadTargetOnTrue? ==> (StepDefect(h, steps, step, e) <==> step.onTrue.Some? && step.onTrue.value !in StepIds(steps))
    ensures e.BadTargetOnFalse? ==> (StepDefect(h, steps, step, e) <==> step.onFalse.Some? && step.onFalse.value !in StepIds(steps))
  {
    SyntaxIsCondition(h, Strip(h, step.condition));
    TargetIsNowhere(steps, step.onTrue);
    TargetIsNowhere(steps, step.onFalse);
  }

  lemma ListedMember(name: string, syntax: bool, refs: seq<ValidationError>, onTrue: bool, onFalse: bool, e: ValidationError)
    ensures e in When(syntax, BadCondition(name)) + refs + When(onTrue, BadTargetOnTrue(name)) + When(onFalse, BadTargetOnFalse(name)) <==>
              || (syntax && e == BadCondition(name)) || e in refs
              || (onTrue && e == BadTargetOnTrue(name)) || (onFalse && e == BadTargetOnFalse(name))
  {
  }

  lemma ReferenceMember(h: Host, steps: seq<Step>, step: Step, e: ValidationError)
    requires step.condition != ""
    ensures e in RefErrors(InCondition, Identifiers(h, steps), step.name, RefsIn(h, step.condition)) <==>
              e.UnknownInCondition? && e.step == step.name && StepDefect(h, steps, step, e)
  {
    TextMember(h, InCondition, Identifiers(h, steps), step.name, step.condition, e);
    if e.UnknownInCondition? {
      AllowedIsSomebodys(h, steps, InCondition, e.id);
    }
  }

  lemma LoopMember(h: Host, steps: seq<Step>, step: Step, e: ValidationError)
    ensures e in LoopErrors(h, Identifiers(h, steps), step) <==>
              (e.NoLoopVariable? || e.BadLoopSource? || e.UnknownInLoop?) && e.step == step.name && StepDefect(h, steps, step, e)
  {
    if Looping(step) {
      TextMember(h, InLoop, Identifiers(h, steps), step.name, step.loopSource, e);
      if e.UnknownInLoop? {
        AllowedIsSomebodys(h, steps, InLoop, e.id);
      }
    }
  }

  lemma ConfigMember(h: Host, steps: seq<Step>, step: Step, e: ValidationError)
    ensures e in FieldErrors(h, Identifiers(h, steps), step.name, ConfigOf(step)) <==>
              e.UnknownInConfig? && e.step == step.name && StepDefect(h, steps, step, e)
  {
    FieldMember(h, Identifiers(h, steps), step.name, ConfigOf(step), e);
    if e.UnknownInConfig? {
      AllowedIsSomebodys(h, steps, InConfig, e.id);
    }
  }

  lemma StepMember(h: Host, steps: seq<Step>, step: Step, e: ValidationError)
    ensures e in StepErrors(h, StepIds(steps), Identifiers(h, steps), step) <==>
              OfStep(e) && e.step == step.name && StepDefect(h, steps, step, e)
  {
    ConditionMember(h, steps, step, e);
    LoopMember(h, steps, step, e);
    ConfigMember(h, steps, step, e);
  }

  lemma {:induction false} GatherMember(steps: seq<Step>, report: (nat, Step) -> seq<ValidationError>, e: ValidationError)
    ensures e in Gather(steps, report) <==> exists i :: 0 <= i < |steps| && e in report(i, steps[i])
  {
    if steps != [] {
      var before := steps[..|steps| - 1];
      GatherMember(before, report, e);
      assert e in Gather(steps, report) <==> e in Gather(before, report) || e in report(|steps| - 1, steps[|steps| - 1]);
      assert forall i :: 0 <= i < |before| ==> before[i] == steps[i];
    }
  }

  lemma ListMember(steps: seq<Step>, e: ValidationError)
    ensures e in ListErrors(steps) <==> ListDefect(steps, e)
  {
  }

  lemma RequiredMember(steps: seq<Step>, e: ValidationError)
    ensures e in Gather(steps, RequiredReport()) <==> RequiredDefect(steps, e)
  {
    GatherMember(steps, RequiredReport(), e);
    forall i | 0 <= i < |steps|
      ensures e in RequiredReport()(i, steps[i]) <==> RequiredDefect(steps, e) && e.index == i
    {
      RequiredErrorsMember(steps, i, e);
    }
  }

  lemma RequiredErrorsMember(steps: seq<Step>, i: nat, e: ValidationError)
    requires i < |steps|
    ensures e in RequiredErrors(i, steps[i]) <==> RequiredDefect(steps, e) && e.index == i
  {
  }

  lemma StepsMember(h: Host, steps: seq<Step>, e: ValidationError)
    ensures e in Gather(steps, StepReport(h, StepIds(steps), Identifiers(h, steps))) <==>
              OfStep(e) && exists i :: 0 <= i < |steps| && steps[i].name == e.step && StepDefect(h, steps, steps[i], e)
  {
    var report := StepReport(h, StepIds(steps), Identifiers(h, steps));
    GatherMember(steps, report, e);
    forall i | 0 <= i < |steps|
      ensures e in report(i, steps[i]) <==> OfStep(e) && e.step == steps[i].name && StepDefect(h, steps, steps[i], e)
    {
      StepMember(h, steps, steps[i], e);
    }
  }

  /** The report names exactly the defects of the workflow. */
  lemma ErrorsAreDefects(h: Host, steps: seq<Step>, e: ValidationError)
    ensures e in Errors(h, steps) <==> Defect(h, steps, e)
  {
    ListMember(steps, e);
    RequiredMember(steps, e);
    StepsMember(h, steps, e);
  }
}
