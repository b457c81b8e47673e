/** What every operation of a step keeps. */
module OperationProperties {
  import opened Values
  import Prompts
  import opened Workflows
  import opened Interpreter

  /** Events that happen inside an operation. */
  predicate OperationEvent(e: Event) {
    e.Prompted? || e.ObjectStored? || e.AssetCreated? || e.ArtifactCreated? || e.Presigned?
  }

  /** The namespaces that operations publish in. */
  predicate ProductSpace(space: Namespace) {
    space == Artifacts || space == Assets || space == Images || space == Videos
  }

  /** keeps is not disturbed by anything an operation does: calling out, recording an
      event, or publishing a value under both keys of the step. */
  ghost predicate Closed(h: Host, step: Step, keeps: Machine -> bool) {
    && (forall m {:trigger keeps(Tick(m))} :: keeps(m) ==> keeps(Tick(m)))
    && (forall m, e {:trigger keeps(Emit(m, e))} :: keeps(m) && OperationEvent(e) ==> keeps(Emit(m, e)))
    && (forall m, space, v {:trigger keeps(SetBoth(h, m, space, step, v))} ::
          keeps(m) && ProductSpace(space) ==> keeps(SetBoth(h, m, space, step, v)))
  }

  lemma TextKeeps(h: Host, env: Services, m: Machine, step: Step, keeps: Machine -> bool)
    requires keeps(m) && Closed(h, step, keeps)
    ensures keeps(TextOperation(h, env, m, step).m)
  {
    var prompt := Prompts.Build(h, m.context, ConfigOf(step), step.name);
    if h.provider(Provider(step)) && prompt.Ok? {
      assert keeps(Emit(m, Prompted(step.id, prompt.value)));
      var m1 := Tick(Emit(m, Prompted(step.id, prompt.value)));
      assert keeps(m1);
      var answer := env.text(m.clock);
      if answer.Ok? {
        var a := answer.value;
        RegisterArtifactKeeps(h, m1, step, a.artifactType, a.assetId, keeps);
        var m2 := if a.artifactType == "" then m1 else
                    SetBoth(h, RegisterArtifact(m1, step, a.artifactType, a.assetId), Artifacts, step, Id(m1.clock));
        assert |a.artifactType| <= MAX_KIND ==> keeps(m2);
        if a.assetId.Some? {
          assert keeps(SetBoth(h, m2, Assets, step, Id(a.assetId.value)));
        }
      }
    }
  }

  lemma RegisterArtifactKeeps(h: Host, m: Machine, step: Step, kind: string, asset: Option<nat>, keeps: Machine -> bool)
    requires keeps(m) && Closed(h, step, keeps)
    ensures keeps(RegisterArtifact(m, step, kind, asset))
  {
    assert keeps(Emit(m, ArtifactCreated(m.clock, step.id, kind, asset)));
  }

  lemma PersistKeeps(h: Host, env: Services, m: Machine, step: Step, kind: string, contentType: string, body: Bytes,
                     keeps: Machine -> bool)
    requires keeps(m) && Closed(h, step, keeps)
    ensures keeps(Persist(h, env, m, step, kind, contentType, body).m)
  {
    assert keeps(Tick(m));
    assert keeps(Emit(m, ObjectStored(m.clock, body)));
    var m1 := StoreObject(m, body);
    assert keeps(m1);
    assert keeps(Emit(m1, AssetCreated(m1.clock, contentType, |body|, m.clock)));
    var m2 := RegisterAsset(m1, contentType, |body|, m.clock);
    assert keeps(m2);
    RegisterArtifactKeeps(h, m2, step, kind, Some(m1.clock), keeps);
    var m3 := RegisterArtifact(m2, step, kind, Some(m1.clock));
    assert keeps(Tick(m3));
    var url := env.presign(m3.clock);
    if url.Ok? {
      assert keeps(Emit(m3, Presigned(m.clock, url.value)));
      assert keeps(Tick(Emit(m3, Presigned(m.clock, url.value))));
    }
  }

  lemma PublishKeeps(h: Host, m: Machine, step: Step, s1: Namespace, v1: Value, s2: Namespace, v2: Value,
                     s3: Namespace, v3: Value, keeps: Machine -> bool)
    requires keeps(m) && Closed(h, step, keeps) && ProductSpace(s1) && ProductSpace(s2) && ProductSpace(s3)
    ensures keeps(SetBoth(h, SetBoth(h, SetBoth(h, m, s1, step, v1), s2, step, v2), s3, step, v3))
  {
    var m1 := SetBoth(h, m, s1, step, v1);
    assert keeps(m1);
    var m2 := SetBoth(h, m1, s2, step, v2);
    assert keeps(m2);
  }

  lemma ImageKeeps(h: Host, env: Services, m: Machine, step: Step, keeps: Machine -> bool)
    requires keeps(m) && Closed(h, step, keeps)
    ensures keeps(ImageOperation(h, env, m, step).m)
  {
    var prompt := Prompts.Build(h, m.context, ConfigOf(step), step.name);
    if h.provider(Provider(step)) && prompt.Ok? {
      var e := Prompted(step.id, prompt.value.(system := None));
      assert keeps(Emit(m, e));
      var m1 := Tick(Emit(m, e));
      assert keeps(m1) && keeps(Tick(m1));
      var answer := env.image(m.clock);
      if answer.Ok? {
        var image := ImageBytes(env, m1, answer.value);
        assert keeps(image.m);
        if image.Done? {
          var contentType := if answer.value.mime != "" then answer.value.mime else "image/png";
          PersistKeeps(h, env, image.m, step, "image", contentType, image.value, keeps);
          var p := Persist(h, env, image.m, step, "image", contentType, image.value);
          if p.Done? {
            PublishKeeps(h, p.m, step, Images, Str(p.value.url), Artifacts, Id(p.value.artifact), Assets, Id(p.value.asset), keeps);
          }
        }
      }
    }
  }

  lemma VideoKeeps(h: Host, env: Services, m: Machine, step: Step, keeps: Machine -> bool)
    requires keeps(m) && Closed(h, step, keeps)
    ensures keeps(VideoOperation(h, env, m, step).m)
  {
    assert keeps(Tick(m)) && keeps(Tick(Tick(m)));
    var source := InputAsset(h, m.context, step);
    if source.Ok? && HasAsset(env, m.log, source.value) && env.download(m.clock).Ok? {
      var rendered := env.render(Tick(m).clock);
      if rendered.Ok? {
        var m2 := Tick(Tick(m));
        PersistKeeps(h, env, m2, step, "video", "video/mp4", rendered.value.video, keeps);
        var p := Persist(h, env, m2, step, "video", "video/mp4", rendered.value.video);
        if p.Done? {
          PublishKeeps(h, p.m, step, Videos, Str(p.value.url), Assets, Id(p.value.asset), Artifacts, Id(p.value.artifact), keeps);
        }
      }
    }
  }

  /** Whatever is closed under the effects of operations survives every operation, however it ends. */
  lemma OperateKeeps(h: Host, env: Services, m: Machine, step: Step, keeps: Machine -> bool)
    requires keeps(m) && Closed(h, step, keeps)
    ensures keeps(Operate(h, env, m, step).m)
  {
    var operation := Operation(step);
    if operation == Str("text_generation") {
      TextKeeps(h, env, m, step, keeps);
    } else if operation == Str("image_generation") {
      ImageKeeps(h, env, m, step, keeps);
    } else if operation == Str("video_render") {
      VideoKeeps(h, env, m, step, keeps);
    }
  }
}
