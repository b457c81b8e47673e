/** What an operation delivers: the rows it writes, the job output, and the values under which
    later steps find them. */
module Products {
  import opened Values
  import opened Contexts
  import Prompts
  import opened Workflows
  import opened Interpreter
  import opened Progress
  import opened Namespaces
  import Accounting

  /** The object, asset row, artifact row and URL of one stored product. */
  datatype Delivery = Delivery(objectKey: nat, body: Bytes, contentType: string, asset: nat, artifact: nat, url: string)

  /** What storing it writes: the artifact names the asset, the asset the object and its size,
      and the URL is the object's. */
  function Rows(step: Step, kind: string, d: Delivery): seq<Event> {
    [ObjectStored(d.objectKey, d.body), AssetCreated(d.asset, d.contentType, |d.body|, d.objectKey),
     ArtifactCreated(d.artifact, step.id, kind, Some(d.asset)), Presigned(d.objectKey, d.url)]
  }

  lemma PersistDelivers(h: Host, env: Services, m: Machine, step: Step, kind: string, contentType: string, body: Bytes)
    returns (d: Delivery)
    requires Persist(h, env, m, step, kind, contentType, body).Done?
    ensures var o := Persist(h, env, m, step, kind, contentType, body);
            && o.m.log == m.log + Rows(step, kind, d) && o.m.context == m.context
            && o.value == Persisted(d.asset, d.artifact, d.url) && d.body == body && d.contentType == contentType
  {
    var m1 := StoreObject(m, body);
    var m2 := RegisterAsset(m1, contentType, |body|, m.clock);
    var m3 := RegisterArtifact(m2, step, kind, Some(m1.clock));
    d := Delivery(m.clock, body, contentType, m1.clock, m2.clock, env.presign(m3.clock).value);
  }

  /** Both names of the step lead to the URL, the artifact and the asset of this delivery. */
  ghost predicate Shows(h: Host, c: Context, step: Step, d: Delivery) {
    forall key :: Names(h, step, key) ==>
      && (IsImage(step) ==> key in c.images && c.images[key] == Str(d.url))
      && (IsVideo(step) ==> key in c.videos && c.videos[key] == Str(d.url))
      && key in c.artifacts && c.artifacts[key] == Id(d.artifact)
      && key in c.assets && c.assets[key] == Id(d.asset)
  }

  /** The job output, and likewise the result, says where the product is. */
  ghost predicate Describes(h: Host, v: Value, link: string, d: Delivery, metadata: Value) {
    && v.Dict?
    && Get(v.fields, link) == Some(Str(d.url))
    && Get(v.fields, "asset_id") == Some(Str(h.show(Id(d.asset))))
    && Get(v.fields, "artifact_id") == Some(Str(h.show(Id(d.artifact))))
    && Get(v.fields, "metadata") == Some(metadata)
  }

  lemma ProductDescribes(h: Host, link: string, p: Persisted, d: Delivery, metadata: Value)
    requires p == Persisted(d.asset, d.artifact, d.url) && (link == "image_url" || link == "video_url")
    ensures var product := ProductOf(h, link, p, metadata);
            product.result == product.output && Describes(h, product.output, link, d, metadata)
  {
    var fields := ProductOf(h, link, p, metadata).output.fields;
    assert fields[1..][0].key == "asset_id" && fields[1..][1..][0].key == "artifact_id" && fields[1..][1..][1..][0].key == "metadata";
    assert Get(fields[1..][1..], "artifact_id") == Some(fields[2].value);
    assert Get(fields[1..][1..][1..], "metadata") == Some(fields[3].value);
    assert Get(fields[1..][1..], "metadata") == Some(fields[3].value);
    assert Get(fields[1..], "metadata") == Some(fields[3].value);
    assert Get(fields[1..], "artifact_id") == Some(fields[2].value);
  }

  lemma ImagePublishes(h: Host, m: Machine, step: Step, d: Delivery)
    requires IsImage(step)
    ensures var m2 := SetBoth(h, SetBoth(h, SetBoth(h, m, Images, step, Str(d.url)), Artifacts, step, Id(d.artifact)), Assets, step, Id(d.asset));
            Shows(h, m2.context, step, d) && m.log <= m2.log
  {
  }

  lemma VideoPublishes(h: Host, m: Machine, step: Step, d: Delivery)
    requires IsVideo(step)
    ensures var m2 := SetBoth(h, SetBoth(h, SetBoth(h, m, Videos, step, Str(d.url)), Assets, step, Id(d.asset)), Artifacts, step, Id(d.artifact));
            Shows(h, m2.context, step, d) && m.log <= m2.log
  {
  }

  /** The image that a provider answered with, or the one behind the link that it answered with. */
  ghost predicate ImageOf(env: Services, ticket: nat, body: Bytes, contentType: string) {
    && env.image(ticket).Ok?
    && var a := env.image(ticket).value;
    && (if a.bytes != [] then body == a.bytes else a.url != "" && env.fetch(ticket + 1) == Ok(body))
    && contentType == (if a.mime == "" then "image/png" else a.mime)
  }

  /** An operation has stored a product: its rows are written, it is published under both names
      of the step, and the output describes it. */
  ghost predicate Delivered(h: Host, log: seq<Event>, o: Outcome<Product>, step: Step, kind: string, link: string, d: Delivery, metadata: Value) {
    && o.Done?
    && log + Rows(step, kind, d) <= o.m.log
    && Shows(h, o.m.context, step, d)
    && o.value.result == o.value.output && Describes(h, o.value.output, link, d, metadata)
  }

  lemma ImageStored(h: Host, env: Services, m: Machine, step: Step, contentType: string, body: Bytes, metadata: Value)
    returns (d: Delivery)
    requires IsImage(step) && FinishImage(h, env, m, step, contentType, body, metadata).Done?
    ensures Delivered(h, m.log, FinishImage(h, env, m, step, contentType, body, metadata), step, "image", "image_url", d, metadata)
    ensures d.body == body && d.contentType == contentType
  {
    d := PersistDelivers(h, env, m, step, "image", contentType, body);
    var p := Persist(h, env, m, step, "image", contentType, body);
    ImagePublishes(h, p.m, step, d);
    ProductDescribes(h, "image_url", p.value, d, metadata);
  }

  lemma VideoStored(h: Host, env: Services, m: Machine, step: Step, source: nat, r: RenderAnswer) returns (d: Delivery)
    requires IsVideo(step) && FinishVideo(h, env, m, step, source, r).Done?
    ensures Delivered(h, m.log, FinishVideo(h, env, m, step, source, r), step, "video", "video_url", d,
                      RenderMetadata(h, r.metadata, source))
    ensures d.body == r.video && d.contentType == "video/mp4"
  {
    d := PersistDelivers(h, env, m, step, "video", "video/mp4", r.video);
    var p := Persist(h, env, m, step, "video", "video/mp4", r.video);
    VideoPublishes(h, p.m, step, d);
    ProductDescribes(h, "video_url", p.value, d, RenderMetadata(h, r.metadata, source));
  }

  lemma ImageEnds(h: Host, env: Services, m: Machine, step: Step) returns (m2: Machine, contentType: string, body: Bytes)
    requires ImageOperation(h, env, m, step).Done?
    ensures ImageOf(env, m.clock, body, contentType)
    ensures ImageOperation(h, env, m, step) == FinishImage(h, env, m2, step, contentType, body, env.image(m.clock).value.metadata)
    ensures var prompt := Prompts.Build(h, m.context, ConfigOf(step), step.name);
            prompt.Ok? && m2.log == m.log + [Prompted(step.id, Prompts.PromptComposition(prompt.value.user, None))]
  {
    var prompt := Prompts.Build(h, m.context, ConfigOf(step), step.name).value;
    var a := env.image(m.clock).value;
    var m1 := Tick(Emit(m, Prompted(step.id, prompt.(system := None))));
    BytesOf(env, m1, a);
    var image := ImageBytes(env, m1, a);
    m2, contentType, body := image.m, if a.mime != "" then a.mime else "image/png", image.value;
  }

  lemma BytesOf(env: Services, m: Machine, a: ImageAnswer)
    ensures var o := ImageBytes(env, m, a);
            o.Done? ==> o.m.log == m.log && if a.bytes != [] then o.value == a.bytes else a.url != "" && env.fetch(m.clock) == Ok(o.value)
  {
  }

  /** A completed image operation has asked for an image with the composed user prompt, stored
      what it got, written its rows and published them under both names. */
  lemma ImageDelivers(h: Host, env: Services, m: Machine, step: Step) returns (d: Delivery)
    requires ImageOperation(h, env, m, step).Done? && IsImage(step)
    ensures var prompt := Prompts.Build(h, m.context, ConfigOf(step), step.name);
            && prompt.Ok?
            && var asked := m.log + [Prompted(step.id, Prompts.PromptComposition(prompt.value.user, None))];
            Delivered(h, asked, ImageOperation(h, env, m, step), step, "image", "image_url", d, env.image(m.clock).value.metadata)
    ensures ImageOf(env, m.clock, d.body, d.contentType)
  {
    var m2, contentType, body := ImageEnds(h, env, m, step);
    d := ImageStored(h, env, m2, step, contentType, body, env.image(m.clock).value.metadata);
  }

  /** The metadata of a rendering with the id of the asset that it was made from. */
  ghost predicate Sourced(h: Host, rendered: Config, source: nat, metadata: Value) {
    && metadata.Dict?
    && forall key :: Get(metadata.fields, key) ==
                       if key == "source_asset_id" then Some(Str(h.show(Id(source)))) else Get(rendered, key)
  }

  lemma WithSource(h: Host, rendered: Config, source: nat)
    ensures Sourced(h, rendered, source, RenderMetadata(h, rendered, source))
  {
    forall key
      ensures Get(With(rendered, "source_asset_id", Str(h.show(Id(source)))), key) ==
                if key == "source_asset_id" then Some(Str(h.show(Id(source)))) else Get(rendered, key)
    {
      GetWith(rendered, "source_asset_id", Str(h.show(Id(source))), key);
    }
  }

  /** The asset that a video step is made from: what its input reference resolves to. */
  ghost predicate InputOf(h: Host, c: Context, step: Step, source: nat) {
    && Get(ConfigOf(step), "input_asset").Some? && Get(ConfigOf(step), "input_asset").value.Str?
    && var text := Get(ConfigOf(step), "input_asset").value.s;
    && text != "" && ResolveToAny(h, c, text).Ok? && h.uuid(h.show(ResolveToAny(h, c, text).value)) == Some(source)
  }

  /** A completed video operation has rendered an asset that exists and that the input reference
      resolves to, stored the video, written its rows and published them under both names. */
  lemma VideoDelivers(h: Host, env: Services, m: Machine, step: Step) returns (d: Delivery, source: nat, metadata: Value)
    requires VideoOperation(h, env, m, step).Done? && IsVideo(step)
    ensures InputOf(h, m.context, step, source) && (env.asset(source) || AssetIn(m.log, source))
    ensures Delivered(h, m.log, VideoOperation(h, env, m, step), step, "video", "video_url", d, metadata)
    ensures env.render(m.clock + 1).Ok?
    ensures var r := env.render(m.clock + 1).value;
            d.body == r.video && d.contentType == "video/mp4" && Sourced(h, r.metadata, source, metadata)
  {
    source := VideoEnds(h, env, m, step);
    var r := env.render(m.clock + 1).value;
    metadata := RenderMetadata(h, r.metadata, source);
    WithSource(h, r.metadata, source);
    d := VideoStored(h, env, Tick(Tick(m)), step, source, r);
  }

  /** How a video operation comes to its end. */
  lemma VideoEnds(h: Host, env: Services, m: Machine, step: Step) returns (source: nat)
    requires VideoOperation(h, env, m, step).Done?
    ensures InputOf(h, m.context, step, source) && (env.asset(source) || AssetIn(m.log, source))
    ensures env.render(m.clock + 1).Ok?
    ensures VideoOperation(h, env, m, step) == FinishVideo(h, env, Tick(Tick(m)), step, source, env.render(m.clock + 1).value)
  {
    source := InputAsset(h, m.context, step).value;
  }

  // ----- texts -----

  /** A completed text operation has asked with the composed prompts, and its result is the
      content of the answer. An artifact is recorded and published exactly when the answer has a
      type for it, an asset exactly when the answer names one; nothing else is published. */
  lemma TextDelivers(h: Host, env: Services, m: Machine, step: Step)
    requires TextOperation(h, env, m, step).Done?
    ensures var o := TextOperation(h, env, m, step);
            var prompt := Prompts.Build(h, m.context, ConfigOf(step), step.name);
            && prompt.Ok? && env.text(m.clock).Ok?
            && var a := env.text(m.clock).value;
            && m.log + [Prompted(step.id, prompt.value)] <= o.m.log
            && TextPublishes(h, Emit(m, Prompted(step.id, prompt.value)), o.m, step, a)
            && o.value.result == a.content && o.value.output.Dict?
            && Get(o.value.output.fields, "result") == Some(a.content)
            && Get(o.value.output.fields, "metadata") == Some(a.metadata)
  {
    var prompt := Prompts.Build(h, m.context, ConfigOf(step), step.name).value;
    var a := env.text(m.clock).value;
    FinishPublishes(h, Tick(Emit(m, Prompted(step.id, prompt))), step, a);
    var fields := TextOperation(h, env, m, step).value.output.fields;
    assert Get(fields[1..], "metadata") == Some(a.metadata);
  }

  lemma FinishPublishes(h: Host, m: Machine, step: Step, a: TextAnswer)
    ensures TextPublishes(h, m, FinishText(h, m, step, a), step, a) && m.log <= FinishText(h, m, step, a).log
  {
  }

  ghost predicate TextPublishes(h: Host, m: Machine, m2: Machine, step: Step, a: TextAnswer) {
    && m2.context == m.context.(artifacts := m2.context.artifacts, assets := m2.context.assets)
    && (a.artifactType == "" ==> m2.context.artifacts == m.context.artifacts)
    && (a.artifactType != "" ==>
          && |m2.log| > |m.log| && m2.log[|m.log|].ArtifactCreated?
          && var e := m2.log[|m.log|];
          e.from == step.id && e.kind == a.artifactType && e.assetId == a.assetId
          && forall key :: Names(h, step, key) ==> key in m2.context.artifacts && m2.context.artifacts[key] == Id(e.artifact))
    && (a.assetId.None? ==> m2.context.assets == m.context.assets)
    && (a.assetId.Some? ==> forall key :: Names(h, step, key) ==> key in m2.context.assets && m2.context.assets[key] == Id(a.assetId.value))
  }

  // ----- what a visit leaves -----

  /** These events were written one after the other, from position n on. */
  ghost predicate Appears(log: seq<Event>, n: nat, events: seq<Event>) {
    exists before :: n <= |before| && before + events <= log
  }

  lemma AppearsLater(log: seq<Event>, log2: seq<Event>, n: nat, n2: nat, events: seq<Event>)
    requires Appears(log, n, events) && log <= log2 && n2 <= n
    ensures Appears(log2, n2, events)
  {
    var before :| n <= |before| && before + events <= log;
    assert before + events <= log2;
  }

  function KindOf(step: Step): string {
    if IsImage(step) then "image" else "video"
  }

  /** Since position n of the log the step has made a product, and its values are this one's. */
  ghost predicate Made(h: Host, m: Machine, n: nat, step: Step) {
    exists d :: Appears(m.log, n, Rows(step, KindOf(step), d)) && Shows(h, m.context, step, d)
  }

  /** An operator whose completed calls on the step make a product. */
  ghost predicate Makes(h: Host, op: Operator, step: Step) {
    forall m :: op(m, step).Done? ==> m.log <= op(m, step).m.log && Made(h, op(m, step).m, |m.log|, step)
  }

  lemma DeliveredMade(h: Host, log: seq<Event>, n: nat, o: Outcome<Product>, step: Step, link: string, d: Delivery, metadata: Value)
    requires Delivered(h, log, o, step, KindOf(step), link, d, metadata) && n <= |log|
    ensures Made(h, o.m, n, step)
  {
    assert Appears(o.m.log, n, Rows(step, KindOf(step), d));
  }

  lemma OperationsMake(h: Host, env: Services, step: Step)
    requires IsImage(step) || IsVideo(step)
    ensures Makes(h, Operations(h, env), step)
  {
    forall m | Operations(h, env)(m, step).Done?
      ensures m.log <= Operations(h, env)(m, step).m.log && Made(h, Operations(h, env)(m, step).m, |m.log|, step)
    {
      Accounting.OperateFramed(h, env, m, step);
      OperateMakes(h, env, m, step);
    }
  }

  lemma OperateMakes(h: Host, env: Services, m: Machine, step: Step)
    requires (IsImage(step) || IsVideo(step)) && Operate(h, env, m, step).Done?
    ensures Made(h, Operate(h, env, m, step).m, |m.log|, step)
  {
    if IsImage(step) {
      var d := ImageDelivers(h, env, m, step);
      var prompt := Prompts.Build(h, m.context, ConfigOf(step), step.name).value;
      DeliveredMade(h, m.log + [Prompted(step.id, Prompts.PromptComposition(prompt.user, None))], |m.log|,
                    ImageOperation(h, env, m, step), step, "image_url", d, env.image(m.clock).value.metadata);
    } else {
      var d, source, metadata := VideoDelivers(h, env, m, step);
      DeliveredMade(h, m.log, |m.log|, VideoOperation(h, env, m, step), step, "video_url", d, metadata);
    }
  }

  lemma MadeLater(h: Host, m: Machine, m2: Machine, n: nat, n2: nat, step: Step)
    requires Made(h, m, n, step) && m.log <= m2.log && n2 <= n
    requires m2.context == m.context.(outputs := m2.context.outputs, variables := m2.context.variables)
    ensures Made(h, m2, n2, step)
  {
    var d :| Appears(m.log, n, Rows(step, KindOf(step), d)) && Shows(h, m.context, step, d);
    AppearsLater(m.log, m2.log, n, n2, Rows(step, KindOf(step), d));
    ShowsStill(h, m.context, m2.context, step, d);
  }

  lemma ShowsStill(h: Host, c: Context, c2: Context, step: Step, d: Delivery)
    requires Shows(h, c, step, d) && c2 == c.(outputs := c2.outputs, variables := c2.variables)
    ensures Shows(h, c2, step, d)
  {
  }

  lemma IterationMakes(h: Host, op: Operator, m: Machine, step: Step, item: Option<Value>)
    requires Makes(h, op, step) && Iteration(op, m, step, item).Done?
    ensures var o := Iteration(op, m, step, item); m.log <= o.m.log && Made(h, o.m, |m.log|, step)
  {
    var m1 := OpenJob(Bind(m, step, item), step, item);
    var o := op(m1, step);
    MadeLater(h, o.m, Iteration(op, m, step, item).m, |m1.log|, |m.log|, step);
  }

  lemma {:induction false} IterationsMake(h: Host, op: Operator, m: Machine, step: Step, items: seq<Option<Value>>)
    requires Makes(h, op, step) && Iterations(op, m, step, items).Done?
    ensures var o := Iterations(op, m, step, items); m.log <= o.m.log && (items != [] ==> Made(h, o.m, |m.log|, step))
    decreases |items|
  {
    if items != [] {
      IterationMakes(h, op, m, step, items[0]);
      var o := Iteration(op, m, step, items[0]);
      IterationsMake(h, op, o.m, step, items[1..]);
      if items[1..] != [] {
        MadeLater(h, Iterations(op, m, step, items).m, Iterations(op, m, step, items).m, |o.m.log|, |m.log|, step);
      }
    }
  }

  lemma VisitMakes(h: Host, op: Operator, steps: seq<Step>, m: Machine, i: nat)
    requires i < |steps| && Makes(h, op, steps[i]) && Visit(h, op, steps, m, i).Done?
    requires Accounting.ItemCount(h, OpenVisit(m, steps[i]), steps[i]) > 0
    ensures Made(h, Visit(h, op, steps, m, i).m, |m.log|, steps[i])
  {
    var step := steps[i];
    var m1 := OpenVisit(m, step);
    IterationsMake(h, op, m1, step, Items(h, m1.context, step).value);
    var o := Body(h, op, m1, step);
    MadeLater(h, o.m, CloseVisit(h, o.m, step, o.value), |m1.log|, |m.log|, step);
  }

  /** After a completed visit of an image or video step the references under either of its names
      resolve to the URL, the artifact and the asset that this visit wrote last. */
  lemma VisitDelivers(h: Host, env: Services, steps: seq<Step>, m: Machine, i: nat, key: string) returns (d: Delivery)
    requires i < |steps| && (IsImage(steps[i]) || IsVideo(steps[i]))
    requires VisitorOf(h, Operations(h, env), steps)(m, i).Done? && Accounting.ItemCount(h, OpenVisit(m, steps[i]), steps[i]) > 0
    requires Names(h, steps[i], key) && key != "" && AllWord(h, key)
    ensures var o := VisitorOf(h, Operations(h, env), steps)(m, i);
            && Appears(o.m.log, |m.log|, Rows(steps[i], KindOf(steps[i]), d))
            && (IsImage(steps[i]) ==> ResolveToAny(h, o.m.context, Printed(key, Some("image"))) == Ok(Str(d.url)))
            && (IsVideo(steps[i]) ==> ResolveToAny(h, o.m.context, Printed(key, Some("video"))) == Ok(Str(d.url)))
            && Resolve(h, o.m.context, Printed(key, Some("artifact"))) == Ok(h.show(Id(d.artifact)))
            && ResolveToAny(h, o.m.context, Printed(key, Some("asset"))) == Ok(Id(d.asset))
  {
    var op := Operations(h, env);
    OperationsMake(h, env, steps[i]);
    VisitMakes(h, op, steps, m, i);
    var o := Visit(h, op, steps, m, i);
    d :| Appears(o.m.log, |m.log|, Rows(steps[i], KindOf(steps[i]), d)) && Shows(h, o.m.context, steps[i], d);
    SuffixReads(h, o.m.context, key);
  }

  /** In a pass of the item loop the loop variable, which is called item when the step does not
      name it, resolves to the item, as a bare name and as an output. */
  lemma ItemResolves(h: Host, m: Machine, step: Step, v: Value, key: string)
    requires key == if step.loopVariable == "" then "item" else step.loopVariable
    requires Readable(h, key, None) && v != Null
    ensures var c := Bind(m, step, Some(v)).context;
            && c == m.context.(outputs := m.context.outputs[key := v], variables := m.context.variables[key := v])
            && ResolveToAny(h, c, Printed(key, None)) == Ok(v) && Resolve(h, c, Printed(key, None)) == Ok(h.show(v))
            && ResolveToAny(h, c, Printed(key, Some("output"))) == Ok(v)
  {
    var c := Bind(m, step, Some(v)).context;
    assert LoopVariable(step) == key;
    BindBinds(m, step, v, key);
    BareNameReads(h, c, key);
    SuffixReads(h, c, key);
  }

  lemma BindBinds(m: Machine, step: Step, v: Value, key: string)
    requires key == LoopVariable(step)
    ensures Bind(m, step, Some(v)).context == m.context.(outputs := m.context.outputs[key := v], variables := m.context.variables[key := v])
  {
  }

  /** A completed visit publishes what its items and operations came to, under both names. */
  lemma VisitPublishes(h: Host, op: Operator, steps: seq<Step>, m: Machine, i: nat, key: string)
    requires i < |steps| && Visit(h, op, steps, m, i).Done? && Names(h, steps[i], key) && key != "" && AllWord(h, key)
    ensures var o := Visit(h, op, steps, m, i);
            var body := Body(h, op, OpenVisit(m, steps[i]), steps[i]);
            && body.Done? && key in o.m.context.outputs && o.m.context.outputs[key] == body.value
            && (body.value != Null ==> ResolveToAny(h, o.m.context, Printed(key, Some("output"))) == Ok(body.value))
  {
    SuffixReads(h, Visit(h, op, steps, m, i).m.context, key);
  }
}
