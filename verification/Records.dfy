/** Referential soundness of the record of a run, at every intermediate point. */
module Records {
  import opened Values
  import opened Contexts
  import Prompts
  import opened Workflows
  import opened Interpreter
  import opened Progress

  /** An object of exactly this size is stored under this key. */
  ghost predicate StoredAs(log: seq<Event>, objectKey: nat, size: nat) {
    exists i :: 0 <= i < |log| && log[i].ObjectStored? && log[i].stored == objectKey && |log[i].body| == size
  }

  ghost predicate ObjectIn(log: seq<Event>, objectKey: nat) {
    exists i :: 0 <= i < |log| && log[i].ObjectStored? && log[i].stored == objectKey
  }

  ghost predicate ArtifactIn(log: seq<Event>, artifact: nat) {
    exists i :: 0 <= i < |log| && log[i].ArtifactCreated? && log[i].artifact == artifact
  }

  ghost predicate SignedIn(log: seq<Event>, url: string) {
    exists i :: 0 <= i < |log| && log[i].Presigned? && log[i].url == url
  }

  /** A text provider may name an asset of its own. */
  ghost predicate AnsweredAsset(env: Services, asset: nat) {
    exists n :: env.text(n).Ok? && env.text(n).value.assetId == Some(asset)
  }

  ghost predicate TextId(steps: seq<Step>, id: nat) {
    exists i :: 0 <= i < |steps| && steps[i].id == id && IsText(steps[i])
  }

  ghost predicate TextKey(h: Host, steps: seq<Step>, key: string) {
    exists i :: 0 <= i < |steps| && Names(h, steps[i], key) && IsText(steps[i])
  }

  /** What must already be in the record for e to be written. Only text steps may refer to
      something that the run did not persist, and only to what a text provider answered. */
  ghost predicate Backed(h: Host, env: Services, steps: seq<Step>, log: seq<Event>, e: Event) {
    match e
    case AssetCreated(_, _, size, objectKey) => StoredAs(log, objectKey, size)
    case ArtifactCreated(_, from, _, Some(asset)) =>
      AssetIn(log, asset) || (TextId(steps, from) && AnsweredAsset(env, asset))
    case ArtifactCreated(_, from, _, None) => TextId(steps, from)
    case Presigned(target, _) => ObjectIn(log, target)
    case Published(Images, _, v) => v.Str? && SignedIn(log, v.s)
    case Published(Videos, _, v) => v.Str? && SignedIn(log, v.s)
    case Published(Artifacts, _, v) => v.Id? && ArtifactIn(log, v.id)
    case Published(Assets, key, v) =>
      v.Id? && (AssetIn(log, v.id) || (TextKey(h, steps, key) && AnsweredAsset(env, v.id)))
    case _ => true
  }

  /** Every event was backed when it was written; hence so is every prefix. */
  ghost predicate Grounded(h: Host, env: Services, steps: seq<Step>, log: seq<Event>) {
    forall i :: 0 <= i < |log| ==> Backed(h, env, steps, log[..i], log[i])
  }

  lemma GroundedEmit(h: Host, env: Services, steps: seq<Step>, log: seq<Event>, e: Event)
    requires Grounded(h, env, steps, log) && Backed(h, env, steps, log, e)
    ensures Grounded(h, env, steps, log + [e])
  {
    var all := log + [e];
    forall i | 0 <= i < |all|
      ensures Backed(h, env, steps, all[..i], all[i])
    {
      if i < |log| {
        assert all[..i] == log[..i] && all[i] == log[i];
      } else {
        assert all[..i] == log;
      }
    }
  }

  /** A crash keeps a prefix of the record: it is sound as well. */
  lemma GroundedPrefix(h: Host, env: Services, steps: seq<Step>, log: seq<Event>, cut: nat)
    requires Grounded(h, env, steps, log) && cut <= |log|
    ensures Grounded(h, env, steps, log[..cut])
  {
    forall i | 0 <= i < cut
      ensures Backed(h, env, steps, log[..cut][..i], log[..cut][i])
    {
      assert log[..cut][..i] == log[..i];
    }
  }

  /** In any sound record, hence after a crash at any point of a run, an artifact of an image
      or video step refers to a persisted asset, which refers to a stored object of exactly
      its size. */
  lemma ArtifactReachesObject(h: Host, env: Services, steps: seq<Step>, log: seq<Event>, i: nat)
    requires Grounded(h, env, steps, log) && i < |log| && log[i].ArtifactCreated? && !TextId(steps, log[i].from)
    ensures exists j, k :: 0 <= k < j < i && log[j].AssetCreated? && log[i].assetId == Some(log[j].asset)
              && log[k].ObjectStored? && log[k].stored == log[j].objectKey && |log[k].body| == log[j].size
  {
    assert Backed(h, env, steps, log[..i], log[i]);
    var j :| 0 <= j < i && log[..i][j].AssetCreated? && log[i].assetId == Some(log[..i][j].asset);
    assert Backed(h, env, steps, log[..j], log[j]);
    var k :| 0 <= k < j && log[..j][k].ObjectStored? && log[..j][k].stored == log[j].objectKey && |log[..j][k].body| == log[j].size;
    assert log[k] == log[..j][k];
  }

  // ----- every run is sound -----

  ghost predicate Sound(h: Host, env: Services, steps: seq<Step>, m: Machine) {
    Grounded(h, env, steps, m.log)
  }

  lemma SoundEmit(h: Host, env: Services, steps: seq<Step>, m: Machine, e: Event)
    requires Sound(h, env, steps, m) && Backed(h, env, steps, m.log, e)
    ensures Sound(h, env, steps, Emit(m, e))
  {
    GroundedEmit(h, env, steps, m.log, e);
  }

  /** Publishing a backed value under both keys. */
  lemma SoundSetBoth(h: Host, env: Services, steps: seq<Step>, m: Machine, space: Namespace, step: Step, v: Value)
    requires Sound(h, env, steps, m)
    requires Backed(h, env, steps, m.log, Published(space, Key(h, step), v))
    requires Backed(h, env, steps, m.log, Published(space, step.name, v))
    ensures Sound(h, env, steps, SetBoth(h, m, space, step, v))
  {
    var e1, e2 := Published(space, Key(h, step), v), Published(space, step.name, v);
    GroundedEmit(h, env, steps, m.log, e1);
    BackedLater(h, env, steps, m.log, m.log + [e1], e2);
    GroundedEmit(h, env, steps, m.log + [e1], e2);
  }

  /** What is backed stays backed. */
  lemma BackedLater(h: Host, env: Services, steps: seq<Step>, log: seq<Event>, log2: seq<Event>, e: Event)
    requires log <= log2 && Backed(h, env, steps, log, e)
    ensures Backed(h, env, steps, log2, e)
  {
    match e
    case AssetCreated(_, _, size, objectKey) =>
      var i :| 0 <= i < |log| && log[i].ObjectStored? && log[i].stored == objectKey && |log[i].body| == size;
      assert log2[i] == log[i];
    case ArtifactCreated(_, _, _, Some(asset)) =>
      if AssetIn(log, asset) {
        AssetInExtends(log, log2, asset);
      }
    case Presigned(target, _) =>
      var i :| 0 <= i < |log| && log[i].ObjectStored? && log[i].stored == target;
      assert log2[i] == log[i];
    case Published(Images, _, v) => SignedLater(log, log2, v.s);
    case Published(Videos, _, v) => SignedLater(log, log2, v.s);
    case Published(Artifacts, _, v) =>
      var i :| 0 <= i < |log| && log[i].ArtifactCreated? && log[i].artifact == v.id;
      assert log2[i] == log[i];
    case Published(Assets, _, v) =>
      if AssetIn(log, v.id) {
        AssetInExtends(log, log2, v.id);
      }
    case _ =>
  }

  lemma SignedLater(log: seq<Event>, log2: seq<Event>, url: string)
    requires log <= log2 && SignedIn(log, url)
    ensures SignedIn(log2, url)
  {
    var i :| 0 <= i < |log| && log[i].Presigned? && log[i].url == url;
    assert log2[i] == log[i];
  }

  lemma StoreSound(h: Host, env: Services, steps: seq<Step>, m: Machine, body: Bytes)
    requires Sound(h, env, steps, m)
    ensures var m1 := StoreObject(m, body); Sound(h, env, steps, m1) && StoredAs(m1.log, m.clock, |body|) && ObjectIn(m1.log, m.clock)
  {
    var e := ObjectStored(m.clock, body);
    GroundedEmit(h, env, steps, m.log, e);
    assert (m.log + [e])[|m.log|] == e;
  }

  lemma AssetSound(h: Host, env: Services, steps: seq<Step>, m: Machine, contentType: string, size: nat, objectKey: nat)
    requires Sound(h, env, steps, m) && StoredAs(m.log, objectKey, size)
    ensures var m1 := RegisterAsset(m, contentType, size, objectKey);
            Sound(h, env, steps, m1) && AssetIn(m1.log, m.clock) && m.log <= m1.log
  {
    var e := AssetCreated(m.clock, contentType, size, objectKey);
    GroundedEmit(h, env, steps, m.log, e);
    assert (m.log + [e])[|m.log|] == e;
  }

  lemma ArtifactSound(h: Host, env: Services, steps: seq<Step>, m: Machine, step: Step, kind: string, asset: nat)
    requires Sound(h, env, steps, m) && AssetIn(m.log, asset)
    ensures var m1 := RegisterArtifact(m, step, kind, Some(asset));
            Sound(h, env, steps, m1) && ArtifactIn(m1.log, m.clock) && m.log <= m1.log
  {
    var e := ArtifactCreated(m.clock, step.id, kind, Some(asset));
    GroundedEmit(h, env, steps, m.log, e);
    assert (m.log + [e])[|m.log|] == e;
  }

  lemma SignSound(h: Host, env: Services, steps: seq<Step>, m: Machine, target: nat, url: string)
    requires Sound(h, env, steps, m) && ObjectIn(m.log, target)
    ensures var m1 := Emit(m, Presigned(target, url)); Sound(h, env, steps, m1) && SignedIn(m1.log, url) && m.log <= m1.log
  {
    var e := Presigned(target, url);
    GroundedEmit(h, env, steps, m.log, e);
    assert (m.log + [e])[|m.log|] == e;
  }

  ghost predicate Recorded(log: seq<Event>, p: Persisted) {
    AssetIn(log, p.asset) && ArtifactIn(log, p.artifact) && SignedIn(log, p.url)
  }

  lemma ObjectLater(log: seq<Event>, log2: seq<Event>, target: nat)
    requires log <= log2 && ObjectIn(log, target)
    ensures ObjectIn(log2, target)
  {
    var i :| 0 <= i < |log| && log[i].ObjectStored? && log[i].stored == target;
    assert log2[i] == log[i];
  }

  lemma ArtifactLater(log: seq<Event>, log2: seq<Event>, artifact: nat)
    requires log <= log2 && ArtifactIn(log, artifact)
    ensures ArtifactIn(log2, artifact)
  {
    var i :| 0 <= i < |log| && log[i].ArtifactCreated? && log[i].artifact == artifact;
    assert log2[i] == log[i];
  }

  /** After a successful persist the asset, the artifact and the URL are all in the record. */
  lemma PersistSound(h: Host, env: Services, steps: seq<Step>, m: Machine, step: Step, kind: string, contentType: string, body: Bytes)
    requires Sound(h, env, steps, m)
    ensures var o := Persist(h, env, m, step, kind, contentType, body);
            Sound(h, env, steps, o.m) && (o.Done? ==> Recorded(o.m.log, o.value))
  {
    if env.upload(m.clock).Ok? {
      StoreSound(h, env, steps, m, body);
      var m1 := StoreObject(m, body);
      RegisteredSound(h, env, steps, m1, step, kind, contentType, |body|, m.clock);
      var m2 := RegisterAsset(m1, contentType, |body|, m.clock);
      var m3 := RegisterArtifact(m2, step, kind, Some(m1.clock));
      var url := env.presign(m3.clock);
      if url.Ok? {
        SignedRecorded(h, env, steps, m3, m.clock, Persisted(m1.clock, m2.clock, url.value));
      }
    }
  }

  lemma RegisteredSound(h: Host, env: Services, steps: seq<Step>, m: Machine, step: Step, kind: string, contentType: string,
                        size: nat, objectKey: nat)
    requires Sound(h, env, steps, m) && StoredAs(m.log, objectKey, size) && ObjectIn(m.log, objectKey)
    ensures var m2 := RegisterAsset(m, contentType, size, objectKey);
            var m3 := RegisterArtifact(m2, step, kind, Some(m.clock));
            Sound(h, env, steps, m3) && ObjectIn(m3.log, objectKey) && AssetIn(m3.log, m.clock) && ArtifactIn(m3.log, m2.clock)
  {
    AssetSound(h, env, steps, m, contentType, size, objectKey);
    var m2 := RegisterAsset(m, contentType, size, objectKey);
    ArtifactSound(h, env, steps, m2, step, kind, m.clock);
    var m3 := RegisterArtifact(m2, step, kind, Some(m.clock));
    ObjectLater(m.log, m3.log, objectKey);
    AssetInExtends(m2.log, m3.log, m.clock);
  }

  lemma SignedRecorded(h: Host, env: Services, steps: seq<Step>, m: Machine, target: nat, p: Persisted)
    requires Sound(h, env, steps, m) && ObjectIn(m.log, target) && AssetIn(m.log, p.asset) && ArtifactIn(m.log, p.artifact)
    ensures var m1 := Emit(m, Presigned(target, p.url)); Sound(h, env, steps, m1) && Recorded(m1.log, p)
  {
    SignSound(h, env, steps, m, target, p.url);
    AssetInExtends(m.log, Emit(m, Presigned(target, p.url)).log, p.asset);
    ArtifactLater(m.log, Emit(m, Presigned(target, p.url)).log, p.artifact);
  }

  lemma TextSound(h: Host, env: Services, steps: seq<Step>, m: Machine, step: Step)
    requires Sound(h, env, steps, m) && step in steps && IsText(step)
    ensures Sound(h, env, steps, TextOperation(h, env, m, step).m)
  {
    var k :| 0 <= k < |steps| && steps[k] == step;
    assert TextId(steps, step.id) && TextKey(h, steps, step.name) && TextKey(h, steps, Key(h, step));
    var prompt := Prompts.Build(h, m.context, ConfigOf(step), step.name);
    if h.provider(Provider(step)) && prompt.Ok? {
      SoundEmit(h, env, steps, m, Prompted(step.id, prompt.value));
      var m1 := Tick(Emit(m, Prompted(step.id, prompt.value)));
      var answer := env.text(m.clock);
      if answer.Ok? {
        var a := answer.value;
        assert a.assetId.Some? ==> AnsweredAsset(env, a.assetId.value);
        TextArtifactSound(h, env, steps, m1, step, a.artifactType, a.assetId);
        var m2 := if a.artifactType == "" then m1 else
                    SetBoth(h, RegisterArtifact(m1, step, a.artifactType, a.assetId), Artifacts, step, Id(m1.clock));
        if a.assetId.Some? {
          SoundSetBoth(h, env, steps, m2, Assets, step, Id(a.assetId.value));
        }
      }
    }
  }

  lemma TextArtifactSound(h: Host, env: Services, steps: seq<Step>, m: Machine, step: Step, kind: string, asset: Option<nat>)
    requires Sound(h, env, steps, m) && TextId(steps, step.id)
    requires asset.Some? ==> AnsweredAsset(env, asset.value)
    ensures Sound(h, env, steps, SetBoth(h, RegisterArtifact(m, step, kind, asset), Artifacts, step, Id(m.clock)))
  {
    var e := ArtifactCreated(m.clock, step.id, kind, asset);
    SoundEmit(h, env, steps, m, e);
    var m2 := RegisterArtifact(m, step, kind, asset);
    assert m2.log[|m.log|] == e;
    SoundSetBoth(h, env, steps, m2, Artifacts, step, Id(m.clock));
  }

  lemma PublishSound(h: Host, env: Services, steps: seq<Step>, m: Machine, step: Step,
                     s1: Namespace, v1: Value, s2: Namespace, v2: Value, s3: Namespace, v3: Value)
    requires Sound(h, env, steps, m)
    requires forall key :: Backed(h, env, steps, m.log, Published(s1, key, v1))
    requires forall key :: Backed(h, env, steps, m.log, Published(s2, key, v2))
    requires forall key :: Backed(h, env, steps, m.log, Published(s3, key, v3))
    ensures Sound(h, env, steps, SetBoth(h, SetBoth(h, SetBoth(h, m, s1, step, v1), s2, step, v2), s3, step, v3))
  {
    SoundSetBoth(h, env, steps, m, s1, step, v1);
    var m1 := SetBoth(h, m, s1, step, v1);
    BackedLater(h, env, steps, m.log, m1.log, Published(s2, Key(h, step), v2));
    BackedLater(h, env, steps, m.log, m1.log, Published(s2, step.name, v2));
    SoundSetBoth(h, env, steps, m1, s2, step, v2);
    var m2 := SetBoth(h, m1, s2, step, v2);
    BackedLater(h, env, steps, m.log, m2.log, Published(s3, Key(h, step), v3));
    BackedLater(h, env, steps, m.log, m2.log, Published(s3, step.name, v3));
    SoundSetBoth(h, env, steps, m2, s3, step, v3);
  }

  lemma ImagePublishSound(h: Host, env: Services, steps: seq<Step>, m: Machine, step: Step, p: Persisted)
    requires Sound(h, env, steps, m) && Recorded(m.log, p)
    ensures Sound(h, env, steps, SetBoth(h, SetBoth(h, SetBoth(h, m, Images, step, Str(p.url)), Artifacts, step, Id(p.artifact)),
                                         Assets, step, Id(p.asset)))
  {
    PublishSound(h, env, steps, m, step, Images, Str(p.url), Artifacts, Id(p.artifact), Assets, Id(p.asset));
  }

  lemma VideoPublishSound(h: Host, env: Services, steps: seq<Step>, m: Machine, step: Step, p: Persisted)
    requires Sound(h, env, steps, m) && Recorded(m.log, p)
    ensures Sound(h, env, steps, SetBoth(h, SetBoth(h, SetBoth(h, m, Videos, step, Str(p.url)), Assets, step, Id(p.asset)),
                                         Artifacts, step, Id(p.artifact)))
  {
    PublishSound(h, env, steps, m, step, Videos, Str(p.url), Assets, Id(p.asset), Artifacts, Id(p.artifact));
  }

  lemma ImageSound(h: Host, env: Services, steps: seq<Step>, m: Machine, step: Step)
    requires Sound(h, env, steps, m)
    ensures Sound(h, env, steps, ImageOperation(h, env, m, step).m)
  {
    var prompt := Prompts.Build(h, m.context, ConfigOf(step), step.name);
    if h.provider(Provider(step)) && prompt.Ok? {
      var e := Prompted(step.id, prompt.value.(system := None));
      SoundEmit(h, env, steps, m, e);
      var m1 := Tick(Emit(m, e));
      var answer := env.image(m.clock);
      if answer.Ok? {
        var image := ImageBytes(env, m1, answer.value);
        if image.Done? {
          var contentType := if answer.value.mime != "" then answer.value.mime else "image/png";
          PersistSound(h, env, steps, image.m, step, "image", contentType, image.value);
          var p := Persist(h, env, image.m, step, "image", contentType, image.value);
          if p.Done? {
            ImagePublishSound(h, env, steps, p.m, step, p.value);
          }
        }
      }
    }
  }

  lemma VideoSound(h: Host, env: Services, steps: seq<Step>, m: Machine, step: Step)
    requires Sound(h, env, steps, m)
    ensures Sound(h, env, steps, VideoOperation(h, env, m, step).m)
  {
    var source := InputAsset(h, m.context, step);
    if source.Ok? && HasAsset(env, m.log, source.value) && env.download(m.clock).Ok? {
      var rendered := env.render(Tick(m).clock);
      if rendered.Ok? {
        var m2 := Tick(Tick(m));
        PersistSound(h, env, steps, m2, step, "video", "video/mp4", rendered.value.video);
        var p := Persist(h, env, m2, step, "video", "video/mp4", rendered.value.video);
        if p.Done? {
          VideoPublishSound(h, env, steps, p.m, step, p.value);
        }
      }
    }
  }

  lemma OperateSound(h: Host, env: Services, steps: seq<Step>, m: Machine, step: Step)
    requires Sound(h, env, steps, m) && step in steps
    ensures Sound(h, env, steps, Operate(h, env, m, step).m)
  {
    if IsText(step) {
      TextSound(h, env, steps, m, step);
    } else if IsImage(step) {
      ImageSound(h, env, steps, m, step);
    } else if IsVideo(step) {
      VideoSound(h, env, steps, m, step);
    }
  }

  /** An operator that keeps records sound. */
  ghost predicate Careful(h: Host, env: Services, steps: seq<Step>, op: Operator) {
    forall m, step :: step in steps && Sound(h, env, steps, m) ==> Sound(h, env, steps, op(m, step).m)
  }

  /** Events that need no backing. */
  predicate Free(e: Event) {
    !e.AssetCreated? && !e.ArtifactCreated? && !e.Presigned? && (e.Published? ==> e.space == Outputs || e.space == Variables)
  }

  lemma SoundFree(h: Host, env: Services, steps: seq<Step>, m: Machine, e: Event)
    requires Sound(h, env, steps, m) && Free(e)
    ensures Sound(h, env, steps, Emit(m, e))
  {
    SoundEmit(h, env, steps, m, e);
  }

  lemma BindSound(h: Host, env: Services, steps: seq<Step>, m: Machine, step: Step, item: Option<Value>)
    requires Sound(h, env, steps, m)
    ensures Sound(h, env, steps, Bind(m, step, item))
  {
    if item.Some? {
      SoundFree(h, env, steps, m, Published(Outputs, LoopVariable(step), item.value));
      SoundFree(h, env, steps, Set(m, Outputs, LoopVariable(step), item.value), Published(Variables, LoopVariable(step), item.value));
    }
  }

  lemma IterationSound(h: Host, env: Services, steps: seq<Step>, op: Operator, m: Machine, step: Step, item: Option<Value>)
    requires Careful(h, env, steps, op) && step in steps && Sound(h, env, steps, m)
    ensures Sound(h, env, steps, Iteration(op, m, step, item).m)
  {
    var m1 := Bind(m, step, item);
    BindSound(h, env, steps, m, step, item);
    var e2 := JobCreated(m1.clock, step.id, JobName(step, item), ConfigOf(step), item);
    SoundFree(h, env, steps, m1, e2);
    SoundFree(h, env, steps, Tick(Emit(m1, e2)), JobUpdated(m1.clock, Running, None));
    var m2 := OpenJob(m1, step, item);
    var o := op(m2, step);
    assert Sound(h, env, steps, o.m);
    if o.Done? {
      SoundFree(h, env, steps, o.m, JobUpdated(m1.clock, Completed, Some(o.value.output)));
    }
  }

  lemma {:induction false} IterationsSound(h: Host, env: Services, steps: seq<Step>, op: Operator, m: Machine, step: Step, items: seq<Option<Value>>)
    requires Careful(h, env, steps, op) && step in steps && Sound(h, env, steps, m)
    ensures Sound(h, env, steps, Iterations(op, m, step, items).m)
    decreases |items|
  {
    if items != [] {
      IterationSound(h, env, steps, op, m, step, items[0]);
      var o := Iteration(op, m, step, items[0]);
      if o.Done? {
        IterationsSound(h, env, steps, op, o.m, step, items[1..]);
      }
    }
  }

  lemma VisitSound(h: Host, env: Services, steps: seq<Step>, op: Operator, m: Machine, i: nat)
    requires Careful(h, env, steps, op) && i < |steps| && Sound(h, env, steps, m)
    ensures Sound(h, env, steps, Visit(h, op, steps, m, i).m)
  {
    var step := steps[i];
    SoundFree(h, env, steps, m, StepStatus(step.id, Running));
    SoundFree(h, env, steps, Emit(m, StepStatus(step.id, Running)), History(Some(step.id), Running));
    var m1 := OpenVisit(m, step);
    var items := Items(h, m1.context, step);
    if items.Ok? {
      if items.value != [] {
        BindSound(h, env, steps, m1, step, items.value[0]);
      }
      IterationsSound(h, env, steps, op, m1, step, items.value);
      var o := Body(h, op, m1, step);
      if o.Done? {
        CloseVisitSound(h, env, steps, o.m, step, o.value);
      }
    }
  }

  lemma CloseVisitSound(h: Host, env: Services, steps: seq<Step>, m: Machine, step: Step, output: Value)
    requires Sound(h, env, steps, m)
    ensures Sound(h, env, steps, CloseVisit(h, m, step, output))
  {
    SoundSetBoth(h, env, steps, m, Outputs, step, output);
    var m1 := SetBoth(h, m, Outputs, step, output);
    SoundFree(h, env, steps, m1, StepStatus(step.id, Completed));
    SoundFree(h, env, steps, Emit(m1, StepStatus(step.id, Completed)), History(Some(step.id), Completed));
  }

  lemma EndSound(h: Host, env: Services, steps: seq<Step>, m: Machine, status: Status, scope: Option<nat>)
    requires Sound(h, env, steps, m)
    ensures Sound(h, env, steps, End(m, status, scope))
  {
    SoundFree(h, env, steps, m, ExecutionStatus(status));
    var m1 := Emit(m, ExecutionStatus(status));
    SoundFree(h, env, steps, m1, History(scope, status));
    var m2 := Emit(m1, History(scope, status));
    SoundFree(h, env, steps, m2, MetricRecorded("duration_ms", None));
    var m3 := Emit(m2, MetricRecorded("duration_ms", None));
    SoundFree(h, env, steps, m3, MetricRecorded("step_count", Some(|m.executed|)));
    var m4 := Emit(m3, MetricRecorded("step_count", Some(|m.executed|)));
    SoundFree(h, env, steps, m4, MetricRecorded("success_count", Some(m.successes)));
    var m5 := Emit(m4, MetricRecorded("success_count", Some(m.successes)));
    SoundFree(h, env, steps, m5, MetricRecorded("failure_count", Some(m.failures)));
  }

  lemma MarkFailedSound(h: Host, env: Services, steps: seq<Step>, m: Machine, step: Step, error: Fault)
    requires Sound(h, env, steps, m)
    ensures Sound(h, env, steps, FailStep(m, step)) && Sound(h, env, steps, MarkFailed(m, step, error))
  {
    SoundFree(h, env, steps, m.(failures := m.failures + 1), StepStatus(step.id, Failed));
    var m1 := FailStep(m, step);
    var e := ErrorRow(step, error);
    SoundFree(h, env, steps, m1, e);
    if m.job.Some? {
      SoundFree(h, env, steps, Emit(m1, e), JobUpdated(m.job.value, Failed, None));
    }
  }

  lemma HandleSound(h: Host, env: Services, steps: seq<Step>, m: Machine, step: Step, k: nat, error: Fault)
    requires Sound(h, env, steps, m)
    ensures Sound(h, env, steps, Handle(m, step, k, error).m)
  {
    MarkFailedSound(h, env, steps, m, step, error);
    var m3 := MarkFailed(m, step, error);
    SoundFree(h, env, steps, m3, ExecutionStatus(Failed));
    EndSound(h, env, steps, m3, Failed, Some(step.id));
  }

  ghost predicate KeepsSound(h: Host, env: Services, steps: seq<Step>, visit: Visitor) {
    forall m, i: nat :: i < |steps| && Sound(h, env, steps, m) ==> Sound(h, env, steps, visit(m, i).m)
  }

  lemma VisitorKeepsSound(h: Host, env: Services, steps: seq<Step>)
    ensures KeepsSound(h, env, steps, VisitorOf(h, Operations(h, env), steps))
  {
    var op := Operations(h, env);
    forall m, step | step in steps && Sound(h, env, steps, m)
      ensures Sound(h, env, steps, op(m, step).m)
    {
      OperateSound(h, env, steps, m, step);
    }
    forall m, i: nat | i < |steps| && Sound(h, env, steps, m)
      ensures Sound(h, env, steps, VisitorOf(h, op, steps)(m, i).m)
    {
      VisitSound(h, env, steps, op, m, i);
    }
  }

  lemma {:induction false} StepsSound(h: Host, env: Services, steps: seq<Step>, visit: Visitor, m: Machine, i: Option<nat>, bound: nat)
    requires Lands(visit, |steps|) && (i.Some? ==> i.value < |steps|)
    requires KeepsSound(h, env, steps, visit) && Sound(h, env, steps, m)
    ensures Sound(h, env, steps, Steps(steps, visit, m, i, bound).m)
    decreases bound
  {
    if i.None? {
      EndSound(h, env, steps, m, Completed, None);
    } else if bound > 0 {
      var o := visit(m, i.value);
      if o.Done? {
        StepsSound(h, env, steps, visit, o.m, o.value, bound - 1);
      } else {
        HandleSound(h, env, steps, o.m, steps[i.value], i.value, o.error);
      }
    }
  }

  /** At every intermediate point of every run, hence after a crash anywhere, the record is sound. */
  lemma RunsAreGrounded(h: Host, env: Services, steps: seq<Step>, clock: nat, bound: nat, cut: nat)
    requires cut <= |Execute(steps, VisitorOf(h, Operations(h, env), steps), clock, bound).m.log|
    ensures Grounded(h, env, steps, Execute(steps, VisitorOf(h, Operations(h, env), steps), clock, bound).m.log[..cut])
  {
    var visit := VisitorOf(h, Operations(h, env), steps);
    VisitorKeepsSound(h, env, steps);
    var m := Start(Fresh(clock));
    assert m.log == [ExecutionStatus(Running), History(None, Running)];
    StepsSound(h, env, steps, visit, m, FirstStep(steps), bound);
    GroundedPrefix(h, env, steps, Execute(steps, visit, clock, bound).m.log, cut);
  }
}
