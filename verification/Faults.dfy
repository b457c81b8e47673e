/** Which fault stops a step, by what its configuration says and what the services answer. */
module Faults {
  import opened Values
  import opened Contexts
  import Conditions
  import Prompts
  import opened Workflows
  import opened Interpreter

  /** An entry of the step's configuration, or its default. */
  ghost predicate Setting(step: Step, key: string, default: Value, v: Value) {
    match Get(ConfigOf(step), key)
    case Some(x) => v == x
    case None => v == default
  }

  /** The operation of a step: text_generation when nothing else is configured. */
  ghost predicate Asks(step: Step, operation: Value) {
    Setting(step, "operation", Str("text_generation"), operation)
  }

  lemma UnknownOperationFails(h: Host, env: Services, m: Machine, step: Step, operation: Value)
    requires Asks(step, operation)
    requires operation != Str("text_generation") && operation != Str("image_generation") && operation != Str("video_render")
    ensures Operate(h, env, m, step) == Raised(m, UnknownOperation(h.show(operation)))
  {
  }

  /** Before a provider is asked: its name must be known, then the prompts must compose. */
  ghost predicate Refused(h: Host, m: Machine, step: Step, provider: Value, o: Outcome<Product>) {
    var prompt := Prompts.Build(h, m.context, ConfigOf(step), step.name);
    && (!h.provider(provider) ==>
          && o.Raised? && o.m == m && o.error.UnknownProvider?
          && (provider.Str? ==> o.error.text == "Unsupported AI provider: " + provider.s))
    && (h.provider(provider) && prompt.Err? ==> o == Raised(m, PromptFault(prompt.error)))
  }

  predicate Accepted(h: Host, m: Machine, step: Step, provider: Value) {
    h.provider(provider) && Prompts.Build(h, m.context, ConfigOf(step), step.name).Ok?
  }

  /** A text step fails over its provider's name, its prompts, its provider's exception, or an
      artifact type that does not fit; otherwise it completes. */
  lemma TextFaults(h: Host, env: Services, m: Machine, step: Step, provider: Value)
    requires Asks(step, Str("text_generation")) && Setting(step, "provider", Str("mock"), provider)
    ensures var o := Operate(h, env, m, step);
            && Refused(h, m, step, provider, o)
            && (Accepted(h, m, step, provider) ==>
                  match env.text(m.clock)
                  case Err(e) => o.Raised? && o.error == CallFailed(e)
                  case Ok(a) => if |a.artifactType| <= 100 then o.Done? else o.Raised? && o.error.Unusable?)
  {
  }

  /** An image step fails over its provider's name, its prompts, its provider's exception, an
      empty answer or a link that cannot be fetched, before anything is stored. */
  lemma ImageFaults(h: Host, env: Services, m: Machine, step: Step, provider: Value)
    requires Asks(step, Str("image_generation")) && Setting(step, "provider", Str("mock"), provider)
    ensures var o := Operate(h, env, m, step);
            && Refused(h, m, step, provider, o)
            && (Accepted(h, m, step, provider) ==> ImageRefused(env, m, o))
  {
    assert Operate(h, env, m, step) == ImageOperation(h, env, m, step) && Provider(step) == provider;
    if Accepted(h, m, step, provider) {
      AnswerFaults(h, env, m, step);
    }
  }

  ghost predicate ImageRefused(env: Services, m: Machine, o: Outcome<Product>) {
    match env.image(m.clock)
    case Err(e) => o.Raised? && o.error == CallFailed(e)
    case Ok(a) =>
      && (a.bytes == [] && a.url == "" ==> o.Raised? && o.error == EmptyImage)
      && (a.bytes == [] && a.url != "" && env.fetch(m.clock + 1).Err? ==>
            o.Raised? && o.error == CallFailed(env.fetch(m.clock + 1).error))
  }

  lemma AnswerFaults(h: Host, env: Services, m: Machine, step: Step)
    requires Accepted(h, m, step, Provider(step))
    ensures ImageRefused(env, m, ImageOperation(h, env, m, step))
  {
  }

  /** A video step fails over its input: not configured as a text, not resolvable, not an id, not
      an asset; or over the download or the rendering of that asset. */
  lemma VideoFaults(h: Host, env: Services, m: Machine, step: Step)
    requires Asks(step, Str("video_render"))
    ensures var o := Operate(h, env, m, step);
            match Get(ConfigOf(step), "input_asset")
            case Some(Str(text)) =>
              if text == "" then o == Raised(m, NoInput)
              else (match ResolveToAny(h, m.context, text)
                    case Err(token) => o == Raised(m, InputUnresolved(token))
                    case Ok(v) =>
                      match h.uuid(h.show(v))
                      case None => o == Raised(m, InputNotUuid)
                      case Some(source) => InputFaults(h, env, m, source, o))
            case _ => o == Raised(m, NoInput)
  {
  }

  ghost predicate InputFaults(h: Host, env: Services, m: Machine, source: nat, o: Outcome<Product>) {
    if !env.asset(source) && !AssetIn(m.log, source) then o == Raised(m, NoInputAsset(h.show(Id(source))))
    else
      && (env.download(m.clock).Err? ==> o.Raised? && o.error == CallFailed(env.download(m.clock).error))
      && (env.download(m.clock).Ok? && env.render(m.clock + 1).Err? ==>
            o.Raised? && o.error == CallFailed(env.render(m.clock + 1).error))
  }

  /** Storing a product fails over the upload, a file name or content type that does not fit after
      it, or the link; otherwise it completes. */
  lemma PersistFaults(h: Host, env: Services, m: Machine, step: Step, kind: string, contentType: string, body: Bytes)
    requires kind == "image" || kind == "video"
    ensures var o := Persist(h, env, m, step, kind, contentType, body);
            var name := (if kind == "image" then |"generated_"| else |"rendered_"|) + |step.name|
                        + (if contentType == "image/webp" then |".webp"| else |".png"|);
            if env.upload(m.clock).Err? then o.Raised? && o.error == CallFailed(env.upload(m.clock).error)
            else if name > 255 then o.Raised? && o.error.NameTooLong?
            else if |contentType| > 255 then o.Raised? && o.error.Unusable?
            else
              match env.presign(m.clock + 3)
              case Err(e) => o.Raised? && o.error == CallFailed(e)
              case Ok(url) => o.Done? && o.value.url == url
  {
  }

  /** A loop fails over a source that does not resolve or is no list; and any step over a name that
      is too long for the job of its first item. Otherwise its items are what the source lists. */
  lemma ItemFaults(h: Host, op: Operator, m: Machine, step: Step)
    ensures var o := Body(h, op, m, step);
            if step.loopSource == "" then
              (|step.name| > 255 ==> o.Raised? && o.error.NameTooLong?)
              && (|step.name| <= 255 ==> (o.Done? <==> Iteration(op, m, step, None).Done?))
            else
              match ResolveToAny(h, m.context, step.loopSource)
              case Err(token) => o == Raised(m, LoopUnresolved(token))
              case Ok(v) =>
                && (!v.List? ==> o.Raised? && o.m == m && o.error.LoopNotAList?)
                && (v.List? && v.items != [] && |step.name| + |" (Iteration)"| > 255 ==> o.Raised? && o.error.NameTooLong?)
                && (v == List([]) ==> o == Done(m, List([])))
  {
  }

  /** After the items, a step fails only over its condition, or over a chosen target that no step has. */
  lemma BranchFaults(h: Host, c: Context, steps: seq<Step>, i: nat)
    requires i < |steps|
    ensures var r := Next(h, c, steps, i);
            var step := steps[i];
            if step.condition == "" then r.Ok?
            else
              match Conditions.Evaluate(h, c, step.condition)
              case Err(e) => r == Err(ConditionFault(e))
              case Ok(holds) =>
                var target := if holds then step.onTrue else step.onFalse;
                if target.Some? && forall j :: 0 <= j < |steps| ==> steps[j].id != target.value
                then r == Err(NoTarget(h.show(Id(target.value)))) else r.Ok?
  {
  }
}
