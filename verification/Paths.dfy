/** The static graph of a workflow, and termination of runs along it. */
module Paths {
  import opened Values
  import opened Sequences
  import opened Contexts
  import opened Workflows
  import opened Interpreter
  import opened Accounting
  import Conditions
  import Validator

  /** Step i can fall through to the next step in the list. */
  predicate FallsThrough(step: Step) {
    step.condition == "" || step.onTrue.None? || step.onFalse.None?
  }

  predicate Branches(step: Step, target: Step) {
    step.condition != "" && (step.onTrue == Some(target.id) || step.onFalse == Some(target.id))
  }

  /** True, false and fall-through edges. */
  ghost predicate Edge(steps: seq<Step>, i: nat, j: nat) {
    && i < |steps| && j < |steps|
    && ((FallsThrough(steps[i]) && j == i + 1) || Branches(steps[i], steps[j]))
  }

  /** No branch target lies at or before its step. */
  ghost predicate Forward(steps: seq<Step>) {
    forall i, j :: 0 <= i < |steps| && 0 <= j < |steps| && Branches(steps[i], steps[j]) ==> i < j
  }

  ghost predicate IsPath(steps: seq<Step>, path: seq<nat>) {
    && (forall k :: 0 <= k < |path| ==> path[k] < |steps|)
    && (forall k :: 0 <= k < |path| - 1 ==> Edge(steps, path[k], path[k + 1]))
  }

  /** The static graph has no cycle. */
  ghost predicate Acyclic(steps: seq<Step>) {
    forall path :: IsPath(steps, path) ==> Distinct(path)
  }

  ghost predicate Increasing(path: seq<nat>) {
    forall k, l :: 0 <= k < l < |path| ==> path[k] < path[l]
  }

  lemma JumpIsEdge(h: Host, steps: seq<Step>, i: nat, taken: bool)
    requires i < |steps| && steps[i].condition != ""
    ensures var r := Jump(h, steps, i, taken); r.Ok? && r.value.Some? ==> Edge(steps, i, r.value.value)
  {
  }

  lemma NextIsEdge(h: Host, c: Context, steps: seq<Step>, i: nat)
    requires i < |steps|
    ensures var r := Next(h, c, steps, i); r.Ok? && r.value.Some? ==> Edge(steps, i, r.value.value)
  {
    if steps[i].condition != "" {
      JumpIsEdge(h, steps, i, true);
      JumpIsEdge(h, steps, i, false);
    }
  }

  /** A visitor that moves along edges. */
  ghost predicate Follows(visit: Visitor, steps: seq<Step>) {
    forall m, i: nat :: i < |steps| && visit(m, i).Done? && visit(m, i).value.Some? ==> Edge(steps, i, visit(m, i).value.value)
  }

  lemma VisitorFollows(h: Host, op: Operator, steps: seq<Step>)
    ensures Follows(VisitorOf(h, op, steps), steps)
  {
    forall m, i: nat | i < |steps| && VisitorOf(h, op, steps)(m, i).Done? && VisitorOf(h, op, steps)(m, i).value.Some?
      ensures Edge(steps, i, VisitorOf(h, op, steps)(m, i).value.value)
    {
      var step := steps[i];
      var o := Body(h, op, OpenVisit(m, step), step);
      NextIsEdge(h, CloseVisit(h, o.m, step, o.value).context, steps, i);
    }
  }

  lemma {:induction false} TrailIsPath(steps: seq<Step>, visit: Visitor, m: Machine, i: Option<nat>, bound: nat)
    requires Follows(visit, steps) && (i.Some? ==> i.value < |steps|)
    ensures var t := Trail(visit, m, i, bound); IsPath(steps, t) && (t != [] ==> i == Some(t[0]))
    decreases bound
  {
    if i.Some? && bound > 0 {
      var o := visit(m, i.value);
      if o.Done? {
        if o.value.Some? {
          assert Edge(steps, i.value, o.value.value);
        }
        TrailIsPath(steps, visit, o.m, o.value, bound - 1);
      }
    }
  }

  lemma {:induction false} PathIncreases(steps: seq<Step>, path: seq<nat>)
    requires Forward(steps) && IsPath(steps, path)
    ensures Increasing(path)
    decreases |path|
  {
    if |path| >= 2 {
      var rest := path[1..];
      assert forall k :: 0 <= k < |rest| ==> rest[k] == path[k + 1];
      forall k | 0 <= k < |rest| - 1
        ensures Edge(steps, rest[k], rest[k + 1])
      {
        assert Edge(steps, path[k + 1], path[k + 1 + 1]);
      }
      PathIncreases(steps, rest);
      assert Edge(steps, path[0], path[1]);
      forall k, l | 0 <= k < l < |path|
        ensures path[k] < path[l]
      {
        if k > 0 {
          assert rest[k - 1] < rest[l - 1];
        } else if l > 1 {
          assert rest[0] < rest[l - 1];
        }
      }
    }
  }

  lemma ForwardAcyclic(steps: seq<Step>)
    requires Forward(steps)
    ensures Acyclic(steps)
  {
    forall path | IsPath(steps, path)
      ensures Distinct(path)
    {
      PathIncreases(steps, path);
    }
  }

  /** A run is cut off after its whole allowance, at a step that continues its path. */
  lemma {:induction false} CutOffPath(steps: seq<Step>, visit: Visitor, m: Machine, i: Option<nat>, bound: nat)
    requires Lands(visit, |steps|) && Follows(visit, steps) && (i.Some? ==> i.value < |steps|)
    requires Steps(steps, visit, m, i, bound).CutOff?
    ensures var t := Trail(visit, m, i, bound);
            var path := t + [Steps(steps, visit, m, i, bound).at];
            |t| == bound && IsPath(steps, path) && i == Some(path[0])
    decreases bound
  {
    if bound > 0 {
      var o := visit(m, i.value);
      assert Edge(steps, i.value, o.value.value);
      CutOffPath(steps, visit, o.m, o.value, bound - 1);
      var rest := Trail(visit, o.m, o.value, bound - 1) + [Steps(steps, visit, m, i, bound).at];
      assert Trail(visit, m, i, bound) + [Steps(steps, visit, m, i, bound).at] == [i.value] + rest;
    }
  }

  /** Without cycles no run outlives one visit per step. */
  lemma AcyclicEnds(steps: seq<Step>, visit: Visitor, m: Machine, i: Option<nat>, bound: nat)
    requires Lands(visit, |steps|) && Follows(visit, steps) && (i.Some? ==> i.value < |steps|)
    requires Acyclic(steps) && |steps| <= bound
    ensures !Steps(steps, visit, m, i, bound).CutOff?
  {
    if Steps(steps, visit, m, i, bound).CutOff? {
      CutOffPath(steps, visit, m, i, bound);
      DistinctBounded(Trail(visit, m, i, bound) + [Steps(steps, visit, m, i, bound).at], |steps|);
    }
  }

  /** A larger allowance never changes a run that was not cut off. */
  lemma {:induction false} BoundIrrelevant(steps: seq<Step>, visit: Visitor, m: Machine, i: Option<nat>, small: nat, large: nat)
    requires Lands(visit, |steps|) && (i.Some? ==> i.value < |steps|) && small <= large
    requires !Steps(steps, visit, m, i, small).CutOff?
    ensures Steps(steps, visit, m, i, large) == Steps(steps, visit, m, i, small)
    decreases small
  {
    if i.Some? {
      var o := visit(m, i.value);
      if o.Done? {
        BoundIrrelevant(steps, visit, o.m, o.value, small - 1, large - 1);
      }
    }
  }

  /** When the static graph has no cycle every run ends, after visiting each step at most once
      along a path of the graph; the result is the same for every allowance of at least one
      visit per step. */
  lemma AcyclicTerminates(h: Host, env: Services, steps: seq<Step>, clock: nat, bound: nat)
    requires Acyclic(steps) && |steps| <= bound
    ensures var visit := VisitorOf(h, Operations(h, env), steps);
            var trail := Trail(visit, Start(Fresh(clock)), FirstStep(steps), bound);
            && !Execute(steps, visit, clock, bound).CutOff?
            && Execute(steps, visit, clock, bound) == Execute(steps, visit, clock, |steps|)
            && IsPath(steps, trail) && Distinct(trail) && |trail| <= |steps| && (trail != [] ==> trail[0] == 0)
  {
    var op := Operations(h, env);
    var visit := VisitorOf(h, op, steps);
    VisitorFollows(h, op, steps);
    var m := Start(Fresh(clock));
    AcyclicEnds(steps, visit, m, FirstStep(steps), |steps|);
    BoundIrrelevant(steps, visit, m, FirstStep(steps), |steps|, bound);
    TrailIsPath(steps, visit, m, FirstStep(steps), bound);
    DistinctBounded(Trail(visit, m, FirstStep(steps), bound), |steps|);
  }

  /** With forward-only targets it visits the steps in strictly increasing order. */
  lemma ForwardTerminates(h: Host, env: Services, steps: seq<Step>, clock: nat, bound: nat)
    requires Forward(steps) && |steps| <= bound
    ensures var visit := VisitorOf(h, Operations(h, env), steps);
            var trail := Trail(visit, Start(Fresh(clock)), FirstStep(steps), bound);
            && !Execute(steps, visit, clock, bound).CutOff?
            && Execute(steps, visit, clock, bound) == Execute(steps, visit, clock, |steps|)
            && IsPath(steps, trail) && Increasing(trail) && (trail != [] ==> trail[0] == 0)
  {
    ForwardAcyclic(steps);
    AcyclicTerminates(h, env, steps, clock, bound);
    PathIncreases(steps, Trail(VisitorOf(h, Operations(h, env), steps), Start(Fresh(clock)), FirstStep(steps), bound));
  }

  // ----- runs that cannot complete -----

  /** A completed visit of step i can leave the list. */
  predicate FallsOff(steps: seq<Step>, i: nat) {
    i + 1 == |steps| && FallsThrough(steps[i])
  }

  predicate EndsOff(steps: seq<Step>, path: seq<nat>) {
    path != [] && FallsOff(steps, path[|path| - 1])
  }

  lemma NextFallsOff(h: Host, c: Context, steps: seq<Step>, i: nat)
    requires i < |steps| && Next(h, c, steps, i) == Ok(None)
    ensures FallsOff(steps, i)
  {
  }

  /** A visitor that ends a run only where the list ends. */
  ghost predicate Leaves(visit: Visitor, steps: seq<Step>) {
    forall m, i: nat :: i < |steps| && visit(m, i).Done? && visit(m, i).value.None? ==> FallsOff(steps, i)
  }

  lemma VisitorLeaves(h: Host, op: Operator, steps: seq<Step>)
    ensures Leaves(VisitorOf(h, op, steps), steps)
  {
    forall m, i: nat | i < |steps| && VisitorOf(h, op, steps)(m, i).Done? && VisitorOf(h, op, steps)(m, i).value.None?
      ensures FallsOff(steps, i)
    {
      VisitFallsOff(h, op, steps, m, i);
    }
  }

  lemma VisitFallsOff(h: Host, op: Operator, steps: seq<Step>, m: Machine, i: nat)
    requires i < |steps| && Visit(h, op, steps, m, i).Done? && Visit(h, op, steps, m, i).value.None?
    ensures FallsOff(steps, i)
  {
    var o := Body(h, op, OpenVisit(m, steps[i]), steps[i]);
    NextFallsOff(h, CloseVisit(h, o.m, steps[i], o.value).context, steps, i);
  }

  lemma {:induction false} CompletedFallsOff(steps: seq<Step>, visit: Visitor, m: Machine, i: Option<nat>, bound: nat)
    requires Lands(visit, |steps|) && Leaves(visit, steps) && i.Some? && i.value < |steps|
    requires Steps(steps, visit, m, i, bound).RunCompleted?
    ensures EndsOff(steps, Trail(visit, m, i, bound))
    decreases bound
  {
    var o := visit(m, i.value);
    assert o.Done?;
    var rest := Trail(visit, o.m, o.value, bound - 1);
    assert Trail(visit, m, i, bound) == [i.value] + rest;
    if o.value.Some? {
      CompletedFallsOff(steps, visit, o.m, o.value, bound - 1);
    } else {
      assert rest == [] && FallsOff(steps, i.value);
    }
    EndsOffBefore(steps, i.value, rest);
  }

  lemma EndsOffBefore(steps: seq<Step>, first: nat, rest: seq<nat>)
    requires if rest == [] then first < |steps| && FallsOff(steps, first) else EndsOff(steps, rest)
    ensures EndsOff(steps, [first] + rest)
  {
  }

  /** A run completes only along a path of the static graph from the first step to the last one
      of the list, from which it falls through. */
  lemma CompletionNeedsExit(h: Host, env: Services, steps: seq<Step>, clock: nat, bound: nat) returns (path: seq<nat>)
    requires steps != [] && Execute(steps, VisitorOf(h, Operations(h, env), steps), clock, bound).RunCompleted?
    ensures IsPath(steps, path) && EndsOff(steps, path) && path[0] == 0
    ensures path == Trail(VisitorOf(h, Operations(h, env), steps), Start(Fresh(clock)), FirstStep(steps), bound)
  {
    var op := Operations(h, env);
    var visit := VisitorOf(h, op, steps);
    VisitorFollows(h, op, steps);
    VisitorLeaves(h, op, steps);
    CompletedFallsOff(steps, visit, Start(Fresh(clock)), FirstStep(steps), bound);
    TrailIsPath(steps, visit, Start(Fresh(clock)), FirstStep(steps), bound);
    path := Trail(visit, Start(Fresh(clock)), FirstStep(steps), bound);
  }

  /** A set of steps that no edge leaves, and the end of the list does not either. */
  ghost predicate Trap(steps: seq<Step>, trap: set<nat>) {
    && (forall i, j :: i in trap && Edge(steps, i, j) ==> j in trap)
    && (forall i :: i in trap ==> !FallsOff(steps, i))
  }

  lemma {:induction false} PathStaysIn(steps: seq<Step>, trap: set<nat>, path: seq<nat>, k: nat)
    requires Trap(steps, trap) && IsPath(steps, path) && k < |path| && path[0] in trap
    ensures path[k] in trap
  {
    if k > 0 {
      PathStaysIn(steps, trap, path, k - 1);
      assert Edge(steps, path[k - 1], path[k - 1 + 1]);
    }
  }

  /** A workflow that starts in a trap never completes, whatever the services answer and however
      many visits are allowed. */
  lemma TrappedNeverCompletes(h: Host, env: Services, steps: seq<Step>, clock: nat, bound: nat, trap: set<nat>)
    requires steps != [] && 0 in trap && Trap(steps, trap)
    ensures !Execute(steps, VisitorOf(h, Operations(h, env), steps), clock, bound).RunCompleted?
  {
    if Execute(steps, VisitorOf(h, Operations(h, env), steps), clock, bound).RunCompleted? {
      var path := CompletionNeedsExit(h, env, steps, clock, bound);
      PathStaysIn(steps, trap, path, |path| - 1);
    }
  }
}
