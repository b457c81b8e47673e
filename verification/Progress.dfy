/** Progress: what a workflow needs so that only external calls can fail it. */
module Progress {
  import opened Values
  import opened References
  import opened Contexts
  import Conditions
  import Prompts
  import opened Workflows
  import opened Interpreter
  import opened OperationProperties
  import opened Accounting
  import opened Paths
  import Validator

  predicate IsText(step: Step) {
    Operation(step) == Str("text_generation")
  }

  predicate IsImage(step: Step) {
    Operation(step) == Str("image_generation")
  }

  predicate IsVideo(step: Step) {
    Operation(step) == Str("video_render")
  }

  // ----- static availability -----

  predicate Names(h: Host, step: Step, key: string) {
    key == step.name || key == Key(h, step)
  }

  /** A completed visit of step gives ref a value. */
  predicate Offers(h: Host, step: Step, ref: Reference) {
    && Names(h, step, ref.id)
    && (match ref.suffix
        case None => true
        case Some(s) =>
          if s == "artifact" || s == "asset" then IsImage(step) || IsVideo(step)
          else if s == "image" then IsImage(step)
          else if s == "video" then IsVideo(step)
          else true)
  }

  /** A path of the static graph from the first step to step i. */
  ghost predicate Leads(steps: seq<Step>, path: seq<nat>, i: nat) {
    IsPath(steps, path) && path != [] && path[0] == 0 && path[|path| - 1] == i
  }

  /** Some step of done offers ref. */
  ghost predicate OfferedBy(h: Host, steps: seq<Step>, done: seq<nat>, ref: Reference) {
    exists k :: 0 <= k < |done| && done[k] < |steps| && Offers(h, steps[done[k]], ref)
  }

  /** On every path to step i, a step before it offers ref. */
  ghost predicate OfferedBefore(h: Host, steps: seq<Step>, i: nat, ref: Reference) {
    forall path :: Leads(steps, path, i) ==> OfferedBy(h, steps, path[..|path| - 1], ref)
  }

  /** On every path to step i, a step before it or step i itself offers ref. */
  ghost predicate OfferedUpTo(h: Host, steps: seq<Step>, i: nat, ref: Reference) {
    forall path :: Leads(steps, path, i) ==> OfferedBy(h, steps, path, ref)
  }

  /** The input of a video step is one asset reference. */
  ghost predicate AssetInput(step: Step, h: Host, text: string, ref: Reference) {
    && Get(ConfigOf(step), "input_asset") == Some(Str(text))
    && IsReference(h, Strip(h, text), ref) && ref.suffix == Some("asset")
  }

  /** The job and file names that are built from the step's name fit their columns, whatever
      image format a provider answers with. */
  predicate NameFits(step: Step) {
    && |step.name| <= MAX_NAME
    && (IsImage(step) ==> FileNameLength("image", "image/webp", step) <= MAX_NAME)
    && (IsVideo(step) ==> FileNameLength("video", "video/mp4", step) <= MAX_NAME)
  }

  ghost predicate ReadyStep(h: Host, steps: seq<Step>, i: nat)
    requires i < |steps|
  {
    var step := steps[i];
    && !Looping(step) && NameFits(step)
    && (IsText(step) || IsImage(step) || IsVideo(step))
    && (!IsVideo(step) ==>
          && h.provider(Provider(step))
          && Prompts.NonBlank(h, ConfigOf(step), step.name)
          && forall ref :: ref in Prompts.Queried(h, ConfigOf(step), step.name) ==> OfferedBefore(h, steps, i, ref))
    && (IsVideo(step) ==> exists text, ref :: AssetInput(step, h, text, ref) && OfferedBefore(h, steps, i, ref))
    && (forall ref :: ref in Conditions.Queried(h, step.condition) ==> OfferedUpTo(h, steps, i, ref))
  }

  ghost predicate UniqueKeys(h: Host, steps: seq<Step>) {
    forall i, j, key :: 0 <= i < |steps| && 0 <= j < |steps| && Names(h, steps[i], key) && Names(h, steps[j], key) ==> i == j
  }

  /** A validated workflow without loops or cycles, with unique names disjoint from ids, supported
      operations and providers, non-blank prompts, and every reference it queries offered on
      every path to its use. */
  ghost predicate Ready(h: Host, steps: seq<Step>) {
    && Validator.WellFormed(h, steps) && Acyclic(steps) && UniqueKeys(h, steps)
    && forall i :: 0 <= i < |steps| ==> ReadyStep(h, steps, i)
  }

  /** AIResponse.content is a string, never None. */
  ghost predicate AnswersContent(env: Services) {
    forall n :: env.text(n).Ok? ==> env.text(n).value.content != Null
  }

  // ----- what completed visits leave in the context -----

  ghost predicate PersistedAsset(log: seq<Event>, v: Option<Value>) {
    v.Some? && v.value.Id? && AssetIn(log, v.value.id)
  }

  ghost predicate StockedKey(m: Machine, step: Step, key: string) {
    && Find(m.context.outputs, key).Some?
    && (IsImage(step) || IsVideo(step) ==>
          Find(m.context.artifacts, key).Some? && PersistedAsset(m.log, Find(m.context.assets, key)))
    && (IsImage(step) ==> Find(m.context.images, key).Some?)
    && (IsVideo(step) ==> Find(m.context.videos, key).Some?)
  }

  /** Every value that the completed steps offer is there. */
  ghost predicate Stocked(h: Host, steps: seq<Step>, done: seq<nat>, m: Machine) {
    forall k, key :: 0 <= k < |done| && done[k] < |steps| && Names(h, steps[done[k]], key) ==> StockedKey(m, steps[done[k]], key)
  }

  lemma StockedFinds(h: Host, steps: seq<Step>, done: seq<nat>, m: Machine, ref: Reference)
    requires Stocked(h, steps, done, m) && OfferedBy(h, steps, done, ref)
    ensures Lookup(m.context, ref).Some?
    ensures ref.suffix == Some("asset") ==> PersistedAsset(m.log, Lookup(m.context, ref))
  {
    var k :| 0 <= k < |done| && done[k] < |steps| && Offers(h, steps[done[k]], ref);
    assert StockedKey(m, steps[done[k]], ref.id);
  }

  /** c2 agrees with c on every key that is not one of the step's. */
  ghost predicate SameElsewhere(h: Host, step: Step, c: Context, c2: Context) {
    forall key :: !Names(h, step, key) ==>
      && Find(c2.outputs, key) == Find(c.outputs, key)
      && Find(c2.artifacts, key) == Find(c.artifacts, key)
      && Find(c2.assets, key) == Find(c.assets, key)
      && Find(c2.images, key) == Find(c.images, key)
      && Find(c2.videos, key) == Find(c.videos, key)
  }

  /** What operations leave alone: other steps' values, and rows already recorded. */
  ghost predicate Extends(h: Host, step: Step, m: Machine, m2: Machine) {
    SameElsewhere(h, step, m.context, m2.context) && m.log <= m2.log
  }

  lemma ExtendsSetBoth(h: Host, step: Step, m: Machine, m2: Machine, space: Namespace, v: Value)
    requires Extends(h, step, m, m2)
    ensures Extends(h, step, m, SetBoth(h, m2, space, step, v))
  {
  }

  lemma OperateExtends(h: Host, env: Services, m: Machine, step: Step)
    ensures Extends(h, step, m, Operate(h, env, m, step).m)
  {
    var keeps := x => Extends(h, step, m, x);
    forall m2, space, v | keeps(m2)
      ensures keeps(SetBoth(h, m2, space, step, v))
    {
      ExtendsSetBoth(h, step, m, m2, space, v);
    }
    OperateKeeps(h, env, m, step, keeps);
  }

  lemma AssetInExtends(log: seq<Event>, log2: seq<Event>, asset: nat)
    requires log <= log2 && AssetIn(log, asset)
    ensures AssetIn(log2, asset)
  {
    var i :| 0 <= i < |log| && log[i].AssetCreated? && log[i].asset == asset;
    assert log2[i] == log[i];
  }

  /** Values of other steps survive. */
  lemma StockedExtends(h: Host, steps: seq<Step>, done: seq<nat>, i: nat, m: Machine, m2: Machine)
    requires UniqueKeys(h, steps) && i < |steps| && i !in done
    requires Stocked(h, steps, done, m) && Extends(h, steps[i], m, m2)
    ensures Stocked(h, steps, done, m2)
  {
    forall k, key | 0 <= k < |done| && done[k] < |steps| && Names(h, steps[done[k]], key)
      ensures StockedKey(m2, steps[done[k]], key)
    {
      assert StockedKey(m, steps[done[k]], key);
      assert done[k] in done;
      if Names(h, steps[i], key) {
        assert false;
      }
      if PersistedAsset(m.log, Find(m.context.assets, key)) {
        AssetInExtends(m.log, m2.log, Find(m.context.assets, key).value.id);
      }
    }
  }

  // ----- one visit -----

  /** Persisting under a name that fits fails only in the storage or over the answer's content
      type, and on success the asset row is there. */
  lemma PersistStocks(h: Host, env: Services, m: Machine, step: Step, kind: string, contentType: string, body: Bytes)
    requires FileNameLength(kind, contentType, step) <= MAX_NAME
    ensures var o := Persist(h, env, m, step, kind, contentType, body);
            && (o.Raised? ==> External(o.error))
            && (o.Done? ==> AssetIn(o.m.log, o.value.asset))
  {
    var o := Persist(h, env, m, step, kind, contentType, body);
    if o.Done? {
      var m1 := StoreObject(m, body);
      assert o.m.log[|m1.log|] == AssetCreated(m1.clock, contentType, |body|, m.clock);
    }
  }

  lemma SetBothFinds(h: Host, m: Machine, space: Namespace, step: Step, v: Value, key: string)
    requires Names(h, step, key) && v != Null
    ensures var m2 := SetBoth(h, m, space, step, v);
            && Find(Space(m2.context, space), key) == Some(v)
            && (forall other :: other != space ==> Space(m2.context, other) == Space(m.context, other))
            && m.log <= m2.log
  {
  }

  ghost predicate ProductStocked(h: Host, m: Machine, step: Step) {
    forall key :: Names(h, step, key) ==>
      && (IsImage(step) || IsVideo(step) ==>
            Find(m.context.artifacts, key).Some? && PersistedAsset(m.log, Find(m.context.assets, key)))
      && (IsImage(step) ==> Find(m.context.images, key).Some?)
      && (IsVideo(step) ==> Find(m.context.videos, key).Some?)
  }

  /** An operation that is given its prompt or its input fails only in an external call. */
  ghost predicate Produces(h: Host, o: Outcome<Product>, step: Step) {
    && (o.Raised? ==> External(o.error))
    && (o.Done? ==> o.value.result != Null && ProductStocked(h, o.m, step))
  }

  lemma PublishStocks(h: Host, m: Machine, step: Step, p: Persisted, m1: Machine)
    requires AssetIn(m.log, p.asset)
    requires || (IsImage(step) && m1 == SetBoth(h, SetBoth(h, SetBoth(h, m, Images, step, Str(p.url)), Artifacts, step, Id(p.artifact)),
                                                Assets, step, Id(p.asset)))
             || (IsVideo(step) && m1 == SetBoth(h, SetBoth(h, SetBoth(h, m, Videos, step, Str(p.url)), Assets, step, Id(p.asset)),
                                                Artifacts, step, Id(p.artifact)))
    ensures ProductStocked(h, m1, step)
  {
    forall key | Names(h, step, key)
      ensures Find(m1.context.artifacts, key).Some? && Find(m1.context.assets, key) == Some(Id(p.asset))
      ensures IsImage(step) ==> Find(m1.context.images, key).Some?
      ensures IsVideo(step) ==> Find(m1.context.videos, key).Some?
      ensures m.log <= m1.log
    {
      if IsImage(step) {
        var a := SetBoth(h, m, Images, step, Str(p.url));
        var b := SetBoth(h, a, Artifacts, step, Id(p.artifact));
        SetBothFinds(h, m, Images, step, Str(p.url), key);
        SetBothFinds(h, a, Artifacts, step, Id(p.artifact), key);
        SetBothFinds(h, b, Assets, step, Id(p.asset), key);
        assert Space(a.context, Images) == Space(b.context, Images) == Space(m1.context, Images);
        assert Space(b.context, Artifacts) == Space(m1.context, Artifacts);
      } else {
        var a := SetBoth(h, m, Videos, step, Str(p.url));
        var b := SetBoth(h, a, Assets, step, Id(p.asset));
        SetBothFinds(h, m, Videos, step, Str(p.url), key);
        SetBothFinds(h, a, Assets, step, Id(p.asset), key);
        SetBothFinds(h, b, Artifacts, step, Id(p.artifact), key);
        assert Space(a.context, Videos) == Space(b.context, Videos) == Space(m1.context, Videos);
        assert Space(b.context, Assets) == Space(m1.context, Assets);
      }
    }
    if exists key :: Names(h, step, key) {
      AssetInExtends(m.log, m1.log, p.asset);
    }
  }

  lemma TextProduces(h: Host, env: Services, m: Machine, step: Step)
    requires AnswersContent(env) && IsText(step) && h.provider(Provider(step))
    requires Prompts.Build(h, m.context, ConfigOf(step), step.name).Ok?
    ensures Produces(h, TextOperation(h, env, m, step), step)
  {
  }

  lemma ImageProduces(h: Host, env: Services, m: Machine, step: Step)
    requires IsImage(step) && NameFits(step) && h.provider(Provider(step))
    requires Prompts.Build(h, m.context, ConfigOf(step), step.name).Ok?
    ensures Produces(h, ImageOperation(h, env, m, step), step)
  {
    var prompt := Prompts.Build(h, m.context, ConfigOf(step), step.name).value;
    var m1 := Tick(Emit(m, Prompted(step.id, prompt.(system := None))));
    var answer := env.image(m.clock);
    if answer.Ok? {
      var image := ImageBytes(env, m1, answer.value);
      if image.Done? {
        var contentType := if answer.value.mime != "" then answer.value.mime else "image/png";
        PersistStocks(h, env, image.m, step, "image", contentType, image.value);
        var p := Persist(h, env, image.m, step, "image", contentType, image.value);
        if p.Done? {
          PublishStocks(h, p.m, step, p.value, ImageOperation(h, env, m, step).m);
        }
      }
    }
  }

  lemma VideoProduces(h: Host, env: Services, m: Machine, step: Step, text: string, ref: Reference)
    requires IsVideo(step) && NameFits(step) && AssetInput(step, h, text, ref)
    requires PersistedAsset(m.log, Lookup(m.context, ref))
    ensures Produces(h, VideoOperation(h, env, m, step), step)
  {
    InputFound(h, m, step, text, ref);
    var m1 := Tick(Tick(m));
    var rendered := env.render(Tick(m).clock);
    if env.download(m.clock).Ok? && rendered.Ok? {
      PersistStocks(h, env, m1, step, "video", "video/mp4", rendered.value.video);
      var p := Persist(h, env, m1, step, "video", "video/mp4", rendered.value.video);
      if p.Done? {
        PublishStocks(h, p.m, step, p.value, VideoOperation(h, env, m, step).m);
      }
    }
  }

  lemma InputFound(h: Host, m: Machine, step: Step, text: string, ref: Reference)
    requires AssetInput(step, h, text, ref) && PersistedAsset(m.log, Lookup(m.context, ref))
    ensures InputAsset(h, m.context, step) == Ok(Lookup(m.context, ref).value.id)
  {
    AnyAgreesOnReference(h, m.context, text, ref);
    var s := Strip(h, text);
    ScanIsRegex(h, s, |s|, ref);
    assert s[..|s|] == s;
  }

  /** The operation of a ready step whose earlier steps have completed. */
  lemma OperateProgress(h: Host, env: Services, steps: seq<Step>, done: seq<nat>, i: nat, m: Machine)
    requires i < |steps| && ReadyStep(h, steps, i) && AnswersContent(env)
    requires Leads(steps, done + [i], i) && Stocked(h, steps, done, m)
    ensures Produces(h, Operate(h, env, m, steps[i]), steps[i])
  {
    var step := steps[i];
    if IsVideo(step) {
      VideoProgress(h, env, steps, done, i, m);
    } else {
      PromptBuilds(h, steps, done, i, m);
      if IsText(step) {
        TextProduces(h, env, m, step);
      } else {
        ImageProduces(h, env, m, step);
      }
    }
  }

  lemma VideoProgress(h: Host, env: Services, steps: seq<Step>, done: seq<nat>, i: nat, m: Machine)
    requires i < |steps| && ReadyStep(h, steps, i) && IsVideo(steps[i])
    requires Leads(steps, done + [i], i) && Stocked(h, steps, done, m)
    ensures Produces(h, VideoOperation(h, env, m, steps[i]), steps[i])
  {
    assert (done + [i])[..|done + [i]| - 1] == done;
    var text, ref :| AssetInput(steps[i], h, text, ref) && OfferedBefore(h, steps, i, ref);
    StockedFinds(h, steps, done, m, ref);
    VideoProduces(h, env, m, steps[i], text, ref);
  }

  lemma PromptBuilds(h: Host, steps: seq<Step>, done: seq<nat>, i: nat, m: Machine)
    requires i < |steps| && ReadyStep(h, steps, i) && !IsVideo(steps[i])
    requires Leads(steps, done + [i], i) && Stocked(h, steps, done, m)
    ensures Prompts.Build(h, m.context, ConfigOf(steps[i]), steps[i].name).Ok?
  {
    var step := steps[i];
    assert (done + [i])[..|done + [i]| - 1] == done;
    forall ref | ref in Prompts.Queried(h, ConfigOf(step), step.name)
      ensures Lookup(m.context, ref).Some?
    {
      assert OfferedBefore(h, steps, i, ref);
      StockedFinds(h, steps, done, m, ref);
    }
    Prompts.BuildSucceeds(h, m.context, ConfigOf(step), step.name);
  }

  /** The items, operation and output of a ready step. */
  lemma BodyProgress(h: Host, env: Services, op: Operator, steps: seq<Step>, done: seq<nat>, i: nat, m: Machine)
    requires i < |steps| && ReadyStep(h, steps, i)
    requires forall x :: Stocked(h, steps, done, x) ==> Produces(h, op(x, steps[i]), steps[i]) && Extends(h, steps[i], x, op(x, steps[i]).m)
    requires Stocked(h, steps, done, m)
    ensures var o := Body(h, op, m, steps[i]);
            && Extends(h, steps[i], m, o.m)
            && (o.Raised? ==> External(o.error))
            && (o.Done? ==> o.value != Null && ProductStocked(h, o.m, steps[i]))
  {
    var step := steps[i];
    var m1 := OpenJob(m, step, None);
    assert Stocked(h, steps, done, m1) by {
      StockedGrows(h, steps, done, m, m1);
    }
    var o := op(m1, step);
    SingleItem(op, m, step);
    if o.Done? {
      ProductGrows(h, step, o.m, CloseJob(o.m, m.clock, o.value.output));
    }
  }

  lemma ProductGrows(h: Host, step: Step, m: Machine, m2: Machine)
    requires ProductStocked(h, m, step) && m2.context == m.context && m.log <= m2.log
    ensures ProductStocked(h, m2, step)
  {
    forall key | Names(h, step, key) && PersistedAsset(m.log, Find(m.context.assets, key))
      ensures PersistedAsset(m2.log, Find(m.context.assets, key))
    {
      AssetInExtends(m.log, m2.log, Find(m.context.assets, key).value.id);
    }
  }

  /** A step without loop source has exactly one iteration. */
  lemma SingleItem(op: Operator, m: Machine, step: Step)
    ensures Iterations(op, m, step, [None]) ==
              match Iteration(op, m, step, None)
              case Raised(x, e) => Raised(x, e)
              case Done(x, v) => Done(x, [v])
  {
    var items: seq<Option<Value>> := [None];
    assert items[1..] == [];
    if Iteration(op, m, step, None).Done? {
      var v := Iteration(op, m, step, None).value;
      assert [v] + [] == [v];
    }
  }

  lemma StockedGrows(h: Host, steps: seq<Step>, done: seq<nat>, m: Machine, m2: Machine)
    requires Stocked(h, steps, done, m) && m2.context == m.context && m.log <= m2.log
    ensures Stocked(h, steps, done, m2)
  {
    forall k, key | 0 <= k < |done| && done[k] < |steps| && Names(h, steps[done[k]], key)
      ensures StockedKey(m2, steps[done[k]], key)
    {
      assert StockedKey(m, steps[done[k]], key);
      if PersistedAsset(m.log, Find(m.context.assets, key)) {
        AssetInExtends(m.log, m2.log, Find(m.context.assets, key).value.id);
      }
    }
  }

  /** Closing the visit puts the step itself in stock. */
  lemma CloseStocks(h: Host, steps: seq<Step>, done: seq<nat>, i: nat, m: Machine, output: Value)
    requires i < |steps| && output != Null && UniqueKeys(h, steps) && i !in done
    requires Stocked(h, steps, done, m) && ProductStocked(h, m, steps[i])
    ensures Stocked(h, steps, done + [i], CloseVisit(h, m, steps[i], output))
  {
    var step := steps[i];
    var m1 := SetBoth(h, m, Outputs, step, output);
    var m2 := CloseVisit(h, m, step, output);
    ExtendsSetBoth(h, step, m, m, Outputs, output);
    StockedExtends(h, steps, done, i, m, m2);
    forall key | Names(h, step, key)
      ensures StockedKey(m2, step, key)
    {
      SetBothFinds(h, m, Outputs, step, output, key);
      assert Space(m1.context, Artifacts) == Space(m.context, Artifacts) && Space(m1.context, Assets) == Space(m.context, Assets);
      assert Space(m1.context, Images) == Space(m.context, Images) && Space(m1.context, Videos) == Space(m.context, Videos);
      if PersistedAsset(m.log, Find(m.context.assets, key)) {
        AssetInExtends(m.log, m2.log, Find(m.context.assets, key).value.id);
      }
    }
    forall k, key | 0 <= k < |done + [i]| && (done + [i])[k] < |steps| && Names(h, steps[(done + [i])[k]], key)
      ensures StockedKey(m2, steps[(done + [i])[k]], key)
    {
      if k < |done| {
        assert Names(h, steps[done[k]], key);
      }
    }
  }

  /** Branching after a ready step: the condition parses, resolves, and its target exists. */
  lemma NextProgress(h: Host, steps: seq<Step>, done: seq<nat>, i: nat, m: Machine)
    requires i < |steps| && ReadyStep(h, steps, i) && Validator.WellFormed(h, steps)
    requires Leads(steps, done + [i], i) && Stocked(h, steps, done + [i], m)
    ensures Next(h, m.context, steps, i).Ok?
  {
    var step := steps[i];
    assert Validator.CleanStep(h, Validator.StepIds(steps), Validator.Identifiers(h, steps), step);
    if step.condition != "" {
      forall ref | ref in Conditions.Queried(h, step.condition)
        ensures Lookup(m.context, ref).Some?
      {
        assert OfferedUpTo(h, steps, i, ref);
        StockedFinds(h, steps, done + [i], m, ref);
      }
      Conditions.EvaluateSucceeds(h, m.context, step.condition);
      JumpProgress(h, steps, i, true);
      JumpProgress(h, steps, i, false);
    }
  }

  lemma JumpProgress(h: Host, steps: seq<Step>, i: nat, taken: bool)
    requires i < |steps| && steps[i].condition != ""
    requires Validator.CleanStep(h, Validator.StepIds(steps), Validator.Identifiers(h, steps), steps[i])
    ensures Jump(h, steps, i, taken).Ok?
  {
    var target := Target(steps[i], taken);
    if target.Some? {
      assert target.value in Validator.StepIds(steps);
      assert IndexOf(steps, target.value).Some?;
    }
  }

  /** A visitor under which ready steps fail only externally and keep the stock complete. */
  ghost predicate Progresses(h: Host, visit: Visitor, steps: seq<Step>) {
    forall m, i: nat, done :: i < |steps| && Leads(steps, done + [i], i) && Stocked(h, steps, done, m) ==>
      VisitProgresses(h, visit(m, i), steps, done, i)
  }

  ghost predicate VisitProgresses(h: Host, o: Outcome<Option<nat>>, steps: seq<Step>, done: seq<nat>, i: nat) {
    (o.Raised? ==> External(o.error)) && (o.Done? ==> Stocked(h, steps, done + [i], o.m))
  }

  lemma VisitProgress(h: Host, env: Services, op: Operator, steps: seq<Step>, done: seq<nat>, i: nat, m: Machine)
    requires Ready(h, steps) && i < |steps|
    requires forall x :: Stocked(h, steps, done, x) ==> Produces(h, op(x, steps[i]), steps[i]) && Extends(h, steps[i], x, op(x, steps[i]).m)
    requires Leads(steps, done + [i], i) && Stocked(h, steps, done, m)
    ensures VisitProgresses(h, Visit(h, op, steps, m, i), steps, done, i)
  {
    var step := steps[i];
    assert ReadyStep(h, steps, i);
    var m1 := OpenVisit(m, step);
    StockedGrows(h, steps, done, m, m1);
    BodyProgress(h, env, op, steps, done, i, m1);
    var o := Body(h, op, m1, step);
    if o.Done? {
      NotDoneYet(steps, done, i);
      StockedExtends(h, steps, done, i, m1, o.m);
      CloseStocks(h, steps, done, i, o.m, o.value);
      NextProgress(h, steps, done, i, CloseVisit(h, o.m, step, o.value));
    }
  }

  lemma NotDoneYet(steps: seq<Step>, done: seq<nat>, i: nat)
    requires Acyclic(steps) && Leads(steps, done + [i], i)
    ensures i !in done
  {
    var path := done + [i];
    forall k | 0 <= k < |done|
      ensures done[k] != i
    {
      assert path[k] == done[k] && path[|done|] == i && path[k] != path[|done|];
    }
  }

  lemma VisitorProgresses(h: Host, env: Services, steps: seq<Step>)
    requires Ready(h, steps) && AnswersContent(env)
    ensures Progresses(h, VisitorOf(h, Operations(h, env), steps), steps)
  {
    var op := Operations(h, env);
    forall m, i: nat, done | i < |steps| && Leads(steps, done + [i], i) && Stocked(h, steps, done, m)
      ensures VisitProgresses(h, VisitorOf(h, op, steps)(m, i), steps, done, i)
    {
      forall x | Stocked(h, steps, done, x)
        ensures Produces(h, op(x, steps[i]), steps[i]) && Extends(h, steps[i], x, op(x, steps[i]).m)
      {
        OperateProgress(h, env, steps, done, i, x);
        OperateExtends(h, env, x, steps[i]);
      }
      VisitProgress(h, env, op, steps, done, i, m);
    }
  }

  lemma {:induction false} StepsProgress(h: Host, steps: seq<Step>, visit: Visitor, done: seq<nat>, m: Machine, i: Option<nat>, bound: nat)
    requires Lands(visit, |steps|) && Follows(visit, steps) && Progresses(h, visit, steps)
    requires i.Some? ==> i.value < |steps| && Leads(steps, done + [i.value], i.value)
    requires Stocked(h, steps, done, m)
    ensures var run := Steps(steps, visit, m, i, bound); run.RunFailed? || run.RunEscaped? ==> External(run.error)
    decreases bound
  {
    if i.Some? && bound > 0 {
      var o := visit(m, i.value);
      assert VisitProgresses(h, o, steps, done, i.value);
      if o.Done? {
        if o.value.Some? {
          LeadsOn(steps, done, i.value, o.value.value);
        }
        StepsProgress(h, steps, visit, done + [i.value], o.m, o.value, bound - 1);
      }
    }
  }

  lemma LeadsOn(steps: seq<Step>, done: seq<nat>, i: nat, j: nat)
    requires Leads(steps, done + [i], i) && Edge(steps, i, j)
    ensures Leads(steps, done + [i] + [j], j)
  {
    var path := done + [i];
    forall k | 0 <= k < |path + [j]| - 1
      ensures Edge(steps, (path + [j])[k], (path + [j])[k + 1])
    {
      if k < |path| - 1 {
        assert Edge(steps, path[k], path[k + 1]);
      }
    }
  }

  /** Progress: a ready workflow runs to completion within one visit per step unless an
      external service fails; no run of it fails in resolution, condition syntax, target
      lookup, an unknown operation, or a missing input. */
  lemma ReadyRunsProgress(h: Host, env: Services, steps: seq<Step>, clock: nat, bound: nat)
    requires Ready(h, steps) && AnswersContent(env) && |steps| <= bound
    ensures var run := Execute(steps, VisitorOf(h, Operations(h, env), steps), clock, bound);
            run.RunCompleted? || ((run.RunFailed? || run.RunEscaped?) && External(run.error))
  {
    var op := Operations(h, env);
    AcyclicTerminates(h, env, steps, clock, bound);
    VisitorFollows(h, op, steps);
    VisitorProgresses(h, env, steps);
    ProgressFromStart(h, steps, VisitorOf(h, op, steps), clock, bound);
  }

  lemma ProgressFromStart(h: Host, steps: seq<Step>, visit: Visitor, clock: nat, bound: nat)
    requires Lands(visit, |steps|) && Follows(visit, steps) && Progresses(h, visit, steps)
    ensures var run := Execute(steps, visit, clock, bound); run.RunFailed? || run.RunEscaped? ==> External(run.error)
  {
    assert [] + [0] == [0];
    StepsProgress(h, steps, visit, [], Start(Fresh(clock)), FirstStep(steps), bound);
  }
}
