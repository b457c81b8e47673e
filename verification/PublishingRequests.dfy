/** What is published and when: only assets that are videos, and at the instant that was asked
    for. All of it holds even when repository calls may raise. */
module PublishingRequests {
  import opened Values
  import opened PublishingErrors
  import opened Publications
  import opened PublishingProtocol
  import Safety = PublishingSafety

  // ----- what reaches a provider -----

  /** A stored file with content, of a content type under video/. */
  predicate VideoFile(a: Asset) {
    |a.contentType| >= 6 && a.contentType[..6] == "video/" && a.objectKey != "" && a.size > 0
  }

  /** The asset and the provider that a step finds. */
  predicate Acceptable(c: Choice) {
    c.asset.Some? && VideoFile(c.asset.value) && c.supported
  }

  /** The first thing that is wrong. */
  predicate Blames(c: Choice, r: Refusal) {
    if c.asset.None? then r == AssetMissing
    else if !VideoFile(c.asset.value) then r == AssetInvalid
    else !c.supported && r == UnsupportedProvider
  }

  /** Whoever has claimed a publication goes on to the provider exactly with an acceptable asset,
      and otherwise to the failure that is to blame. */
  lemma LoadedIsVetted(s: State, who: nat, c: Choice)
    requires Possible(s, Act(who, c)) && s.processes[who].pc.Loading? && c.fault.Works?
    ensures var pc := Apply(s, Act(who, c)).processes[who].pc;
            && (pc.Calling? <==> Acceptable(c)) && (pc.Calling? ==> pc.media == c.asset.value)
            && (!Acceptable(c) ==> pc.Failing? && Blames(c, pc.refusal))
  {
  }

  /** A coordinator inserts its row exactly with an acceptable asset, and otherwise ends with the
      failure that is to blame. */
  lemma CoordinatorVets(s: State, who: nat, c: Choice)
    requires Possible(s, Act(who, c)) && s.processes[who].pc.Vetting? && c.fault.Works?
    ensures var pc := Apply(s, Act(who, c)).processes[who].pc;
            && (pc.Inserting? <==> Acceptable(c)) && (pc.Inserting? ==> pc.asset == s.processes[who].pc.asset)
            && (!Acceptable(c) ==> pc.Done? && pc.outcome.Unpublished? && pc.outcome.cause.Because?
                                   && Blames(c, pc.outcome.cause.refusal) && pc.outcome.current.None?)
  {
  }

  ghost predicate MediaOk(s: State) {
    && (forall i :: 0 <= i < |s.processes| && s.processes[i].pc.Calling? ==> VideoFile(s.processes[i].pc.media))
    && (forall id :: id in s.store.handovers ==> VideoFile(s.store.handovers[id].media))
  }

  lemma StoreMedia(s: Store, me: nat, k: Process, c: Choice)
    requires Sensible(k) && (k.pc.Calling? ==> VideoFile(k.pc.media))
    ensures var t := StoreAfter(s, me, CallOf(k, c), c);
            forall id :: id in t.handovers ==> (id in s.handovers && t.handovers[id] == s.handovers[id]) || VideoFile(t.handovers[id].media)
  {
  }

  lemma ResumeMedia(k: Process, reply: Reply, c: Choice)
    requires Sensible(k)
    ensures var pc := Resume(k, reply, c).pc; pc.Calling? ==> k.pc == pc || VideoFile(pc.media)
  {
  }

  lemma EventMedia(s: State, e: Event)
    requires MediaOk(s) && Possible(s, e)
    ensures MediaOk(Apply(s, e))
  {
    if e.Act? {
      var k := s.processes[e.who];
      StoreMedia(s.store, e.who, k, e.choice);
      ResumeMedia(k, ReplyOf(s.store, CallOf(k, e.choice), e.choice), e.choice);
    }
  }

  lemma {:induction false} RunMedia(s: State, events: seq<Event>, t: State)
    requires MediaOk(s) && Run(s, events, t)
    ensures MediaOk(t)
    decreases |events|
  {
    if events != [] {
      EventMedia(s, events[0]);
      RunMedia(Apply(s, events[0]), events[1..], t);
    }
  }

  /** Every asset that a provider was ever given had, as it was read, a content type under video/,
      an object key and a positive size. */
  lemma OnlyVideosReachProviders(events: seq<Event>, s: State, id: nat)
    requires Run(INITIAL, events, s) && id in s.store.handovers
    ensures var a := s.store.handovers[id].media;
            |a.contentType| >= 6 && a.contentType[..6] == "video/" && a.objectKey != "" && a.size > 0
  {
    RunMedia(INITIAL, events, s);
  }

  // ----- what gets an automatic row -----

  /** In its next step a coordinator finds asset acceptable. */
  predicate VetsNow(s: State, e: Event, asset: nat) {
    e.Act? && e.who < |s.processes| && s.processes[e.who].pc == Vetting(asset) && e.choice.fault.Works? && Acceptable(e.choice)
  }

  /** That happens somewhere in the run. */
  predicate Vetted(s: State, events: seq<Event>, asset: nat)
    requires CanRun(s, events)
    decreases |events|
  {
    events != [] && (VetsNow(s, events[0], asset) || Vetted(Apply(s, events[0]), events[1..], asset))
  }

  predicate AutomaticFor(r: Row, asset: nat) {
    r.execution.Some? && r.asset == asset
  }

  ghost predicate Underway(s: State, asset: nat) {
    || (exists i :: 0 <= i < |s.store.rows| && AutomaticFor(s.store.rows[i], asset))
    || (exists i :: 0 <= i < |s.processes| && s.processes[i].pc == Inserting(asset))
  }

  lemma StoreInserts(s: Store, me: nat, k: Process, c: Choice, i: nat)
    requires Sensible(k) && i < |StoreAfter(s, me, CallOf(k, c), c).rows|
    ensures var r := StoreAfter(s, me, CallOf(k, c), c).rows[i];
            r.execution.Some? ==> (i < |s.rows| && AutomaticFor(s.rows[i], r.asset)) || k.pc == Inserting(r.asset)
  {
  }

  lemma ResumeInserts(k: Process, reply: Reply, c: Choice)
    requires Sensible(k) && k.pc != Resume(k, reply, c).pc && Resume(k, reply, c).pc.Inserting?
    ensures k.pc.Vetting? && k.pc.asset == Resume(k, reply, c).pc.asset && reply.Got? && Acceptable(c)
  {
  }

  lemma EventUnderway(s: State, e: Event, asset: nat)
    requires Possible(s, e) && Underway(Apply(s, e), asset)
    ensures Underway(s, asset) || VetsNow(s, e, asset)
  {
    var t := Apply(s, e);
    if e.Act? {
      ActUnderway(s, e.who, e.choice, asset);
    } else if i: nat :| i < |t.store.rows| && AutomaticFor(t.store.rows[i], asset) {
      assert i < |s.store.rows| && t.store.rows[i] == s.store.rows[i];
    } else {
      var i: nat :| i < |t.processes| && t.processes[i].pc == Inserting(asset);
      assert i < |s.processes| && s.processes[i].pc == t.processes[i].pc;
    }
  }

  lemma ActUnderway(s: State, who: nat, c: Choice, asset: nat)
    requires Possible(s, Act(who, c)) && Underway(Apply(s, Act(who, c)), asset)
    ensures Underway(s, asset) || VetsNow(s, Act(who, c), asset)
  {
    var k := s.processes[who];
    var t := Apply(s, Act(who, c));
    if i: nat :| i < |t.store.rows| && AutomaticFor(t.store.rows[i], asset) {
      StoreInserts(s.store, who, k, c, i);
    } else {
      var i: nat :| i < |t.processes| && t.processes[i].pc == Inserting(asset);
      var reply := ReplyOf(s.store, CallOf(k, c), c);
      if i == who && k.pc != t.processes[who].pc {
        ResumeInserts(k, reply, c);
      } else {
        assert s.processes[i].pc == Inserting(asset);
      }
    }
  }

  lemma {:induction false} RunUnderway(s: State, events: seq<Event>, t: State, asset: nat)
    requires Run(s, events, t) && Underway(t, asset)
    ensures Underway(s, asset) || Vetted(s, events, asset)
    decreases |events|
  {
    if events != [] {
      RunUnderway(Apply(s, events[0]), events[1..], t, asset);
      if Underway(Apply(s, events[0]), asset) {
        EventUnderway(s, events[0], asset);
      }
    }
  }

  /** An asset has an automatic row only after a coordinator found it to be a video under a
      provider that is known. */
  lemma AutomaticRowsVetted(events: seq<Event>, s: State, i: nat)
    requires Run(INITIAL, events, s) && i < |s.store.rows| && s.store.rows[i].execution.Some?
    ensures Vetted(INITIAL, events, s.store.rows[i].asset)
  {
    assert AutomaticFor(s.store.rows[i], s.store.rows[i].asset);
    RunUnderway(INITIAL, events, s, s.store.rows[i].asset);
  }

  // ----- when it is published -----

  /** A request to enqueue is refused when its schedule has no zone, or is not later than now;
      otherwise the process carries the instant, which together with the offset is the wall time. */
  lemma SchedulesAreInstants(s: State, id: nat, at: Option<Moment>, now: int)
    ensures var k := Apply(s, EnqueueAt(id, at, now)).processes[|s.processes|];
            && k.kind.Enqueuer? && k.target == id && k.since == now
            && (k.pc == Done(Raised(App(ScheduleWithoutZone))) <==> at.Some? && at.value.offset.None?)
            && (k.pc == Done(Raised(App(ScheduleInPast))) <==>
                  at.Some? && at.value.offset.Some? && at.value.wall <= now + at.value.offset.value)
            && (k.pc == Reading <==> at.None? || (at.value.offset.Some? && at.value.wall > now + at.value.offset.value))
            && (at.None? ==> k.eta.None?)
            && (k.pc == Reading && at.Some? ==> k.eta.Some? && k.eta.value + at.value.offset.value == at.value.wall && k.eta.value > now)
  {
  }

  /** Two spellings of one instant are the same request. */
  lemma SameInstantSameRequest(s: State, id: nat, a: Moment, b: Moment, now: int)
    requires a.offset.Some? && b.offset.Some? && a.wall - a.offset.value == b.wall - b.offset.value
    ensures Apply(s, EnqueueAt(id, Some(a), now)) == Apply(s, EnqueueAt(id, Some(b), now))
  {
  }

  /** eta is the instant of the schedule at. */
  predicate Instant(at: Option<Moment>, eta: Option<int>) {
    if at.None? then eta.None?
    else at.value.offset.Some? && eta.Some? && eta.value + at.value.offset.value == at.value.wall
  }

  ghost predicate Asked(events: seq<Event>, id: nat, now: int, eta: Option<int>) {
    exists at :: EnqueueAt(id, at, now) in events && Instant(at, eta)
  }

  predicate RefusedSchedule(pc: Pc) {
    pc == Done(Raised(App(ScheduleWithoutZone))) || pc == Done(Raised(App(ScheduleInPast)))
  }

  /** An enqueuer that was not refused carries what some request asked for; a coordinator
      queues for now. */
  ghost predicate ProcessAsked(events: seq<Event>, k: Process) {
    && (k.kind.Enqueuer? && !RefusedSchedule(k.pc) ==> Asked(events, k.target, k.since, k.eta))
    && (k.kind.Coordinator? ==> k.eta.None?)
  }

  /** Past the transition to QUEUED. */
  predicate HasQueued(k: Process) {
    (k.kind.Enqueuer? || k.kind.Coordinator?) && (k.pc.Dispatching? || k.pc.Unqueueing? || k.pc.Reviewing? || k.pc.Done?)
    && !RefusedSchedule(k.pc)
  }

  /** A row's times are those of the process that queued it. */
  ghost predicate RowAsked(s: State, i: nat, r: Row) {
    r.queuedAt.Some? || r.scheduledAt.Some? ==>
      && i in s.store.queuers && s.store.queuers[i] < |s.processes|
      && var k := s.processes[s.store.queuers[i]];
      HasQueued(k) && k.target == i && k.eta == r.scheduledAt && r.queuedAt == Some(k.since)
  }

  ghost predicate AskedOk(events: seq<Event>, s: State) {
    && (forall i :: 0 <= i < |s.processes| ==> ProcessAsked(events, s.processes[i]))
    && (forall i :: 0 <= i < |s.store.rows| ==> RowAsked(s, i, s.store.rows[i]))
    && (forall i :: 0 <= i < |s.store.rows| && s.store.rows[i].status.Pending? ==> s.store.rows[i].queuedAt.None? && s.store.rows[i].scheduledAt.None?)
  }

  lemma ResumeAsked(events: seq<Event>, k: Process, reply: Reply, c: Choice)
    requires Sensible(k) && !k.pc.Done? && ProcessAsked(events, k)
    ensures var r := Resume(k, reply, c);
            && ProcessAsked(events, r)
            && (HasQueued(k) || k.pc.Queueing? ==> HasQueued(r) && r.target == k.target && r.since == k.since && r.eta == k.eta)
  {
  }

  predicate SameTimes(r: Row, t: Row) {
    t.queuedAt == r.queuedAt && t.scheduledAt == r.scheduledAt
  }

  predicate NoTimes(r: Row) {
    r.queuedAt.None? && r.scheduledAt.None?
  }

  /** Only the transition to QUEUED writes the times of a row. */
  lemma StoreTimes(s: Store, me: nat, k: Process, c: Choice, i: nat)
    requires Sensible(k) && i < |StoreAfter(s, me, CallOf(k, c), c).rows|
    ensures var t := StoreAfter(s, me, CallOf(k, c), c);
            || (i < |s.rows| && SameTimes(s.rows[i], t.rows[i]) && (i in s.queuers ==> i in t.queuers && t.queuers[i] == s.queuers[i])
                && (t.rows[i].status.Pending? ==> s.rows[i].status.Pending?))
            || (i >= |s.rows| && NoTimes(t.rows[i]))
            || (k.pc.Queueing? && i == k.target && i in t.queuers && t.queuers[i] == me && !t.rows[i].status.Pending?
                && t.rows[i].queuedAt == Some(k.since) && t.rows[i].scheduledAt == k.eta)
  {
    var call := CallOf(k, c);
    if call.Transition? {
      TransitionTimes(s, me, call.id, call.from, call.to, call.w, i);
    }
  }

  lemma TransitionTimes(s: Store, me: nat, id: nat, from: Status, to: Status, w: Write, i: nat)
    requires i < |s.rows| && !to.Pending? && (w.Enqueue? <==> to.Queued?)
    ensures var t := TransitionStore(s, me, id, from, to, w);
            || (SameTimes(s.rows[i], t.rows[i]) && (i in s.queuers ==> i in t.queuers && t.queuers[i] == s.queuers[i])
                && (t.rows[i].status.Pending? ==> s.rows[i].status.Pending?))
            || (to.Queued? && i == id && i in t.queuers && t.queuers[i] == me && !t.rows[i].status.Pending?
                && t.rows[i].queuedAt == Some(w.queuedAt) && t.rows[i].scheduledAt == w.scheduledAt)
  {
  }

  lemma ActAsked(events: seq<Event>, s: State, who: nat, c: Choice)
    requires AskedOk(events, s) && Possible(s, Act(who, c))
    ensures AskedOk(events, Apply(s, Act(who, c)))
  {
    var k := s.processes[who];
    var t := Apply(s, Act(who, c));
    ResumeAsked(events, k, ReplyOf(s.store, CallOf(k, c), c), c);
    forall i | 0 <= i < |t.store.rows|
      ensures RowAsked(t, i, t.store.rows[i])
      ensures t.store.rows[i].status.Pending? ==> NoTimes(t.store.rows[i])
    {
      StoreTimes(s.store, who, k, c, i);
      if i < |s.store.rows| {
        assert RowAsked(s, i, s.store.rows[i]);
      }
    }
  }

  lemma EventAsked(events: seq<Event>, s: State, e: Event)
    requires AskedOk(events, s) && Possible(s, e) && e in events
    ensures AskedOk(events, Apply(s, e))
  {
    if e.Act? {
      ActAsked(events, s, e.who, e.choice);
    } else {
      var t := Apply(s, e);
      forall i | 0 <= i < |t.store.rows|
        ensures RowAsked(t, i, t.store.rows[i])
      {
        if i < |s.store.rows| {
          assert RowAsked(s, i, s.store.rows[i]);
        }
      }
      if e.EnqueueAt? {
        ArrivalAsked(events, e);
      }
    }
  }

  lemma ArrivalAsked(events: seq<Event>, e: Event)
    requires e.EnqueueAt? && e in events
    ensures ProcessAsked(events, NewEnqueuer(e.id, e.at, e.now))
  {
    if !RefusedSchedule(NewEnqueuer(e.id, e.at, e.now).pc) {
      assert Instant(e.at, NewEnqueuer(e.id, e.at, e.now).eta);
    }
  }

  lemma {:induction false} RunAsked(all: seq<Event>, s: State, events: seq<Event>, t: State)
    requires AskedOk(all, s) && Run(s, events, t) && forall i :: 0 <= i < |events| ==> events[i] in all
    ensures AskedOk(all, t)
    decreases |events|
  {
    if events != [] {
      assert events[0] in all;
      EventAsked(all, s, events[0]);
      RunAsked(all, Apply(s, events[0]), events[1..], t);
    }
  }

  /** A row that was queued carries the instant and the moment of the one request that queued it:
      without a schedule there is no instant, otherwise it is the schedule's and lies ahead. A
      coordinator queues without a schedule. */
  lemma QueuedAsRequested(events: seq<Event>, s: State, i: nat)
    requires Run(INITIAL, events, s) && i < |s.store.rows|
    requires s.store.rows[i].queuedAt.Some? || s.store.rows[i].scheduledAt.Some?
    ensures var r := s.store.rows[i];
            && r.queuedAt.Some? && i in s.store.queuers && s.store.queuers[i] < |s.processes|
            && var k := s.processes[s.store.queuers[i]];
            && k.target == i && (k.kind.Coordinator? ==> r.scheduledAt.None?)
            && (!k.kind.Coordinator? ==>
                  && k.kind.Enqueuer?
                  && exists at :: EnqueueAt(i, at, r.queuedAt.value) in events && (at.None? <==> r.scheduledAt.None?)
                       && (at.Some? ==> at.value.offset.Some? && r.scheduledAt.value + at.value.offset.value == at.value.wall
                                        && r.scheduledAt.value > r.queuedAt.value))
  {
    RunAsked(events, INITIAL, events, s);
    var r := s.store.rows[i];
    assert RowAsked(s, i, r);
    var k := s.processes[s.store.queuers[i]];
    if k.kind.Enqueuer? {
      assert ProcessAsked(events, k);
      var at :| EnqueueAt(k.target, at, k.since) in events && Instant(at, k.eta);
      if at.Some? {
        Safety.ReachableOk(s);
        assert Safety.RowOk(r);
      }
    }
  }
}
