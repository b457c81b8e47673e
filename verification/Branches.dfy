/** Which branch a run takes, said without the interpreter's own choice of the next step. */
module Branches {
  import opened Values
  import opened Contexts
  import Conditions
  import opened Workflows
  import opened Interpreter
  import opened Accounting

  /** The step behind i in the list, if there is one. */
  predicate GoesOn(steps: seq<Step>, i: nat, next: Option<nat>) {
    if i + 1 < |steps| then next == Some(i + 1) else next == None
  }

  /** The last step in the list with the id of the target; without a target the run goes on. */
  predicate Reaches(steps: seq<Step>, i: nat, target: Option<nat>, next: Option<nat>) {
    match target
    case None => GoesOn(steps, i, next)
    case Some(id) =>
      && next.Some? && next.value < |steps| && steps[next.value].id == id
      && forall j :: next.value < j < |steps| ==> steps[j].id != id
  }

  /** A step without condition goes on; otherwise a condition that holds leads to the target for
      true, and one that does not to the target for false. */
  ghost predicate Branched(h: Host, steps: seq<Step>, i: nat, c: Context, next: Option<nat>)
    requires i < |steps|
  {
    var step := steps[i];
    && (step.condition == "" ==> GoesOn(steps, i, next))
    && (step.condition != "" ==>
          && Conditions.Evaluate(h, c, step.condition).Ok?
          && (Conditions.Evaluate(h, c, step.condition) == Ok(true) ==> Reaches(steps, i, step.onTrue, next))
          && (Conditions.Evaluate(h, c, step.condition) == Ok(false) ==> Reaches(steps, i, step.onFalse, next)))
  }

  lemma {:induction false} IndexOfIsLast(steps: seq<Step>, id: nat)
    ensures IndexOf(steps, id).Some? ==> forall j :: IndexOf(steps, id).value < j < |steps| ==> steps[j].id != id
  {
    if steps != [] && steps[|steps| - 1].id != id {
      IndexOfIsLast(steps[..|steps| - 1], id);
    }
  }

  lemma JumpReaches(h: Host, steps: seq<Step>, i: nat, taken: bool)
    requires i < |steps|
    ensures Jump(h, steps, i, taken).Ok? ==>
              Reaches(steps, i, if taken then steps[i].onTrue else steps[i].onFalse, Jump(h, steps, i, taken).value)
  {
    var target := if taken then steps[i].onTrue else steps[i].onFalse;
    if target.Some? {
      IndexOfIsLast(steps, target.value);
    }
  }

  lemma NextBranches(h: Host, c: Context, steps: seq<Step>, i: nat)
    requires i < |steps| && Next(h, c, steps, i).Ok?
    ensures Branched(h, steps, i, c, Next(h, c, steps, i).value)
  {
    if steps[i].condition != "" {
      JumpReaches(h, steps, i, true);
      JumpReaches(h, steps, i, false);
    }
  }

  /** Where control goes after a completed visit, by what the condition says in the context that
      the visit leaves. */
  lemma VisitBranches(h: Host, env: Services, steps: seq<Step>, m: Machine, i: nat)
    requires i < |steps|
    ensures var o := VisitorOf(h, Operations(h, env), steps)(m, i); o.Done? ==> Branched(h, steps, i, o.m.context, o.value)
  {
    VisitOfBranches(h, Operations(h, env), steps, m, i);
  }

  lemma VisitOfBranches(h: Host, op: Operator, steps: seq<Step>, m: Machine, i: nat)
    requires i < |steps|
    ensures var o := Visit(h, op, steps, m, i); o.Done? ==> Branched(h, steps, i, o.m.context, o.value)
  {
    var o := Body(h, op, OpenVisit(m, steps[i]), steps[i]);
    if o.Done? {
      var m2 := CloseVisit(h, o.m, steps[i], o.value);
      if Next(h, m2.context, steps, i).Ok? {
        NextBranches(h, m2.context, steps, i);
      }
    }
  }

  ghost predicate Chooses(h: Host, visit: Visitor, steps: seq<Step>) {
    forall m, i: nat :: i < |steps| && visit(m, i).Done? ==> Branched(h, steps, i, visit(m, i).m.context, visit(m, i).value)
  }

  /** The contexts that the completed visits of a run leave, in order. */
  function LeftContexts(visit: Visitor, m: Machine, i: Option<nat>, bound: nat): seq<Context>
    decreases bound
  {
    if i.None? || bound == 0 then []
    else
      match visit(m, i.value)
      case Raised(_, _) => []
      case Done(m1, next) => [m1.context] + LeftContexts(visit, m1, next, bound - 1)
  }

  /** Each step of a trail is the one that the step before it chose in the context it left. */
  ghost predicate Chosen(h: Host, steps: seq<Step>, trail: seq<nat>, contexts: seq<Context>) {
    && |trail| - 1 <= |contexts| <= |trail| && (forall k :: 0 <= k < |trail| ==> trail[k] < |steps|)
    && forall k :: 0 <= k < |trail| - 1 ==> Branched(h, steps, trail[k], contexts[k], Some(trail[k + 1]))
  }

  lemma {:induction false} TrailChosen(h: Host, steps: seq<Step>, visit: Visitor, m: Machine, i: Option<nat>, bound: nat)
    requires Chooses(h, visit, steps) && Lands(visit, |steps|) && (i.Some? ==> i.value < |steps|)
    ensures Chosen(h, steps, Trail(visit, m, i, bound), LeftContexts(visit, m, i, bound))
    decreases bound
  {
    if i.Some? && bound > 0 && visit(m, i.value).Done? {
      var o := visit(m, i.value);
      TrailChosen(h, steps, visit, o.m, o.value, bound - 1);
      ChosenBefore(h, steps, i.value, o.m.context, o.value, Trail(visit, o.m, o.value, bound - 1),
                   LeftContexts(visit, o.m, o.value, bound - 1));
    }
  }

  lemma ChosenBefore(h: Host, steps: seq<Step>, i: nat, c: Context, next: Option<nat>, rest: seq<nat>, contexts: seq<Context>)
    requires i < |steps| && Branched(h, steps, i, c, next) && Chosen(h, steps, rest, contexts)
    requires rest != [] ==> next == Some(rest[0])
    ensures Chosen(h, steps, [i] + rest, [c] + contexts)
  {
    var link := (i: nat, c: Context, j: nat) => i < |steps| && Branched(h, steps, i, c, Some(j));
    LinkedBefore(link, i, c, rest, contexts);
    forall k | 0 <= k < |[i] + rest| - 1
      ensures Branched(h, steps, ([i] + rest)[k], ([c] + contexts)[k], Some(([i] + rest)[k + 1]))
    {
      assert link(([i] + rest)[k], ([c] + contexts)[k], ([i] + rest)[k + 1]);
    }
  }

  /** Every two neighbours of the trail are linked through the context between them. */
  ghost predicate Linked(link: (nat, Context, nat) -> bool, trail: seq<nat>, contexts: seq<Context>) {
    |trail| - 1 <= |contexts| && forall k :: 0 <= k < |trail| - 1 ==> link(trail[k], contexts[k], trail[k + 1])
  }

  lemma LinkedBefore(link: (nat, Context, nat) -> bool, i: nat, c: Context, rest: seq<nat>, contexts: seq<Context>)
    requires Linked(link, rest, contexts) && (rest != [] ==> link(i, c, rest[0]))
    ensures Linked(link, [i] + rest, [c] + contexts)
  {
    var trail, all := [i] + rest, [c] + contexts;
    forall k | 0 <= k < |trail| - 1
      ensures link(trail[k], all[k], trail[k + 1])
    {
      if k > 0 {
        assert link(rest[k - 1], contexts[k - 1], rest[k - 1 + 1]);
      }
    }
  }

  /** Every run goes from step to step as the conditions say in the contexts of that moment. */
  lemma RunsBranch(h: Host, env: Services, steps: seq<Step>, clock: nat, bound: nat)
    ensures var visit := VisitorOf(h, Operations(h, env), steps);
            var m := Start(Fresh(clock));
            Chosen(h, steps, Trail(visit, m, FirstStep(steps), bound), LeftContexts(visit, m, FirstStep(steps), bound))
  {
    var visit := VisitorOf(h, Operations(h, env), steps);
    forall m, i: nat | i < |steps| && visit(m, i).Done?
      ensures Branched(h, steps, i, visit(m, i).m.context, visit(m, i).value)
    {
      VisitBranches(h, env, steps, m, i);
    }
    TrailChosen(h, steps, visit, Start(Fresh(clock)), FirstStep(steps), bound);
  }
}
