/** The trigger after a completed workflow: its configuration and its choice of the video.
    Source: apps/api/publishing/automatic.py. */
module AutomaticPublishing {
  import opened Values
  import opened PublishingErrors
  import opened Publications
  import opened PublishingProtocol
  import PublishingSafety
  import opened PublishingWorld
  import opened PublishingServices

  // ----- the final video -----

  /** The order of list_by_execution: creation time, then id. */
  predicate NotAfter(a: Artifact, b: Artifact) {
    a.createdAt < b.createdAt || (a.createdAt == b.createdAt && a.id <= b.id)
  }

  ghost predicate Sorted(artifacts: seq<Artifact>) {
    forall i, j :: 0 <= i < j < |artifacts| ==> NotAfter(artifacts[i], artifacts[j])
  }

  /** On a sorted list the choice is the greatest video artifact with an asset. */
  lemma {:induction false} FinalVideoIsGreatest(artifacts: seq<Artifact>, i: nat)
    requires Sorted(artifacts) && i < |artifacts| && IsFinal(artifacts[i])
    ensures FinalVideo(artifacts).Some? && NotAfter(artifacts[i], FinalVideo(artifacts).value)
  {
    var n := |artifacts| - 1;
    if !IsFinal(artifacts[n]) {
      FinalVideoIsGreatest(artifacts[..n], i);
    } else {
      assert i == n || NotAfter(artifacts[i], artifacts[n]);
    }
  }

  /** A coordinator whose listing works goes on with the asset of the greatest video artifact,
      unless its provider or title does not fit the creation contract: then it fails. */
  lemma ListingPicksGreatest(s: State, who: nat, c: Choice, i: nat)
    requires Possible(s, Act(who, c)) && s.processes[who].pc.Listing? && c.fault.Works?
    requires Sorted(c.artifacts) && i < |c.artifacts| && IsFinal(c.artifacts[i])
    ensures var k := s.processes[who];
            var pc := Apply(s, Act(who, c)).processes[who].pc;
            && (!(1 <= |k.kind.provider| <= 100 && 1 <= |k.kind.title| <= 255) ==> pc == Done(Unpublished(AutomaticError, None)))
            && (1 <= |k.kind.provider| <= 100 && 1 <= |k.kind.title| <= 255 ==>
                  && pc.Vetting?
                  && exists j :: 0 <= j < |c.artifacts| && IsFinal(c.artifacts[j]) && c.artifacts[j].asset == Some(pc.asset)
                                 && NotAfter(c.artifacts[i], c.artifacts[j]))
  {
    FinalVideoIsGreatest(c.artifacts, i);
    var a := FinalVideo(c.artifacts).value;
    var j :| 0 <= j < |c.artifacts| && c.artifacts[j] == a;
    assert Apply(s, Act(who, c)).processes[who].pc == AfterListing(s.processes[who], c);
  }

  // ----- what automatic rows hold -----

  predicate RowCreated(r: Row) {
    r.execution.Some? ==> CreationFits(r.provider, r.title)
  }

  /** From the vetting of the asset to the insertion, provider and title fit. */
  predicate ProcessCreates(k: Process) {
    k.kind.Coordinator? && (k.pc.Vetting? || k.pc.Inserting? || k.pc.Recovering?) ==> CreationFits(k.kind.provider, k.kind.title)
  }

  ghost predicate CreationOk(s: State) {
    && (forall i :: 0 <= i < |s.store.rows| ==> RowCreated(s.store.rows[i]))
    && (forall i :: 0 <= i < |s.processes| ==> ProcessCreates(s.processes[i]))
  }

  lemma StoreCreates(s: Store, me: nat, k: Process, c: Choice)
    requires Sensible(k) && ProcessCreates(k) && forall i :: 0 <= i < |s.rows| ==> RowCreated(s.rows[i])
    ensures var t := StoreAfter(s, me, CallOf(k, c), c); forall i :: 0 <= i < |t.rows| ==> RowCreated(t.rows[i])
  {
  }

  lemma ResumeCreates(k: Process, reply: Reply, c: Choice)
    requires Sensible(k) && ProcessCreates(k)
    ensures ProcessCreates(Resume(k, reply, c))
  {
  }

  lemma EventCreates(s: State, e: Event)
    requires CreationOk(s) && Possible(s, e)
    ensures CreationOk(Apply(s, e))
  {
    if e.Act? {
      var k := s.processes[e.who];
      StoreCreates(s.store, e.who, k, e.choice);
      ResumeCreates(k, ReplyOf(s.store, CallOf(k, e.choice), e.choice), e.choice);
    }
  }

  lemma {:induction false} RunCreates(s: State, events: seq<Event>, t: State)
    requires CreationOk(s) && Run(s, events, t)
    ensures CreationOk(t)
    decreases |events|
  {
    if events != [] {
      EventCreates(s, events[0]);
      RunCreates(Apply(s, events[0]), events[1..], t);
    }
  }

  /** Whatever the coordinators were started with, a row of an execution has a provider and a
      title that fit their columns. */
  lemma AutomaticRowsFit(s: State, i: nat)
    requires PublishingSafety.Reachable(s) && i < |s.store.rows| && s.store.rows[i].execution.Some?
    ensures 1 <= |s.store.rows[i].provider| <= 100 && 1 <= |s.store.rows[i].title| <= 255
  {
    var events :| Run(INITIAL, events, s);
    RunCreates(INITIAL, events, s);
    assert RowCreated(s.store.rows[i]);
  }

  // ----- configuration -----

  /** Workflow.config as far as it concerns publishing; other entries are ignored. */
  datatype RawConfig = RawConfig(
    autoPublish: bool,
    provider: Option<string>,
    title: Option<string>,
    description: Option<string>)

  /** The field constraints, which see the texts as they were written. */
  predicate FieldsFit(raw: RawConfig) {
    && (raw.provider.Some? ==> 1 <= |raw.provider.value| <= 100)
    && (raw.title.Some? ==> 1 <= |raw.title.value| <= 255)
    && (raw.description.Some? ==> |raw.description.value| <= 5000)
  }

  function NormalizeProvider(h: Host, lower: string -> string, provider: Option<string>): Option<string> {
    match provider
    case None => None
    case Some(p) => Some(lower(Strip(h, p)))
  }

  /** AutomaticPublishingConfig.model_validate: constraints, then normalization, then the
      requirement of a provider. */
  function Validate(h: Host, lower: string -> string, raw: RawConfig): (r: Option<RawConfig>)
    ensures r.Some? && r.value.autoPublish ==> r.value.provider.Some? && r.value.provider.value != ""
  {
    var provider := NormalizeProvider(h, lower, raw.provider);
    if !FieldsFit(raw) then None
    else if raw.autoPublish && (provider.None? || provider.value == "") then None
    else Some(raw.(provider := provider))
  }

  function Title(h: Host, config: RawConfig, workflow: nat): string {
    match config.title
    case Some(t) => t
    case None => "Workflow " + h.show(Id(workflow)) + " video"
  }

  /** The configurations that the trigger does not accept: a text of the wrong length, or no
      provider left where publishing is switched on. */
  predicate Rejected(h: Host, lower: string -> string, raw: RawConfig) {
    || (raw.provider.Some? && (|raw.provider.value| == 0 || |raw.provider.value| > 100))
    || (raw.title.Some? && (|raw.title.value| == 0 || |raw.title.value| > 255))
    || (raw.description.Some? && |raw.description.value| > 5000)
    || (raw.autoPublish && (raw.provider.None? || lower(Strip(h, raw.provider.value)) == ""))
  }

  lemma ValidateRejects(h: Host, lower: string -> string, raw: RawConfig)
    ensures Validate(h, lower, raw).None? <==> Rejected(h, lower, raw)
    ensures Validate(h, lower, raw).Some? ==>
              var config := Validate(h, lower, raw).value;
              && config == raw.(provider := config.provider) && (config.provider.Some? <==> raw.provider.Some?)
              && (raw.provider.Some? ==> config.provider.value == lower(Strip(h, raw.provider.value)))
  {
  }

  /** Create and queue one publication after durable workflow completion. A rejected or
      disabled configuration touches nothing. */
  method HandleCompletion(h: Host, lower: string -> string, raw: RawConfig, workflow: nat, execution: nat,
                          coordinator: AutomaticPublishingCoordinator)
    returns (o: Outcome)
    requires coordinator.world.Valid() && coordinator.queue.world == coordinator.world
    requires coordinator.world.Fair(|coordinator.world.processes|)
    modifies coordinator.world, coordinator.world.repository
    ensures coordinator.world.Valid() && old(coordinator.world.trace) <= coordinator.world.trace
    ensures if Rejected(h, lower, raw) then o == Unpublished(InvalidConfig, None) && coordinator.world.trace == old(coordinator.world.trace)
            else if !raw.autoPublish then o == Skipped && coordinator.world.trace == old(coordinator.world.trace)
            else
              var me := |old(coordinator.world.processes)|;
              && me < |coordinator.world.processes| && coordinator.world.processes[me].pc == Done(o)
              && |coordinator.world.trace| > |old(coordinator.world.trace)|
              && coordinator.world.trace[|old(coordinator.world.trace)|]
                   == Complete(execution, lower(Strip(h, raw.provider.value)),
                               if raw.title.Some? then raw.title.value else "Workflow " + h.show(Id(workflow)) + " video")
  {
    ValidateRejects(h, lower, raw);
    var config := Validate(h, lower, raw);
    if config.None? {
      return Unpublished(InvalidConfig, None);
    }
    if !config.value.autoPublish {
      return Skipped;
    }
    var provider, title := config.value.provider.value, Title(h, config.value, workflow);
    var me := coordinator.world.Arrive(Complete(execution, provider, title), NewCoordinator(execution, provider, title));
    o := coordinator.HandleEnabled(me, execution, provider, title);
  }
}
