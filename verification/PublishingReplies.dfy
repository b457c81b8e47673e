/** What each request is answered, in terms of the row that its process finds. Fault.Works says
    that the repository call of the step returns. */
module PublishingReplies {
  import opened Values
  import opened PublishingErrors
  import opened Publications
  import opened PublishingProtocol

  /** The row of process who's publication, if there is one. */
  predicate Target(s: State, who: nat, r: Row)
    requires who < |s.processes|
  {
    s.processes[who].target < |s.store.rows| && s.store.rows[s.processes[who].target] == r
  }

  predicate Missing(s: State, who: nat)
    requires who < |s.processes|
  {
    s.processes[who].target >= |s.store.rows|
  }

  /** A request, and likewise a delivered message, starts one process on the publication that it
      names; a trigger starts one with its execution, provider and title. */
  lemma RequestsArrive(s: State, id: nat, m: Delivery, execution: nat, provider: string, title: string)
    ensures Apply(s, Event.Publish(id)) == s.(processes := s.processes + [Process(Publisher, id, 0, None, Reading, true)])
    ensures m in s.store.broker ==>
              Apply(s, Deliver(m)) == s.(processes := s.processes + [Process(Worker, m.publication, 0, None, Reading, true)])
    ensures Apply(s, Complete(execution, provider, title)) ==
              s.(processes := s.processes + [Process(Coordinator(execution, provider, title), 0, 0, None, Checking, true)])
  {
  }

  /** A synchronous publisher takes a PENDING publication only. */
  lemma PublisherReads(s: State, who: nat, c: Choice)
    requires Possible(s, Act(who, c)) && c.fault.Works? && s.processes[who].kind.Publisher? && s.processes[who].pc.Reading?
    ensures var t := Apply(s, Act(who, c));
            var pc := t.processes[who].pc;
            && t.store == s.store
            && (Missing(s, who) ==> pc == Done(Raised(App(NotFound))))
            && (forall r :: Target(s, who, r) ==> pc == if r.status == Pending then Claiming else Done(Raised(App(NotPending))))
  {
  }

  /** A worker takes a QUEUED publication, returns one that somebody else has taken or settled,
      and fails on any other. */
  lemma WorkerReads(s: State, who: nat, c: Choice)
    requires Possible(s, Act(who, c)) && c.fault.Works? && s.processes[who].kind.Worker? && s.processes[who].pc.Reading?
    ensures var t := Apply(s, Act(who, c));
            var pc := t.processes[who].pc;
            && t.store == s.store
            && (Missing(s, who) ==> pc == FailingQueued(App(NotFound)))
            && (forall r :: Target(s, who, r) ==>
                  && (r.status == Queued ==> pc == Claiming)
                  && (r.status == Pending ==> pc == FailingQueued(App(WorkerNotQueued)))
                  && (r.status in {Publishing, Published, Failed} ==> pc == Done(Returned(r))))
  {
  }

  /** An enqueuer, and likewise a coordinator, queues a PENDING publication only. */
  lemma EnqueuerReads(s: State, who: nat, c: Choice)
    requires Possible(s, Act(who, c)) && c.fault.Works? && s.processes[who].pc.Reading?
    requires s.processes[who].kind.Enqueuer? || s.processes[who].kind.Coordinator?
    ensures var t := Apply(s, Act(who, c));
            var pc := t.processes[who].pc;
            && t.store == s.store
            && (forall r :: Target(s, who, r) && r.status == Pending ==> pc == Queueing)
            && (Missing(s, who) ==> Refuses(s.processes[who].kind, pc, NotFound))
            && (forall r :: Target(s, who, r) && r.status != Pending ==> Refuses(s.processes[who].kind, pc, NotQueueable))
  {
  }

  /** An enqueuer raises a refusal; a coordinator first looks at the row again. */
  predicate Refuses(kind: Kind, pc: Pc, r: Refusal) {
    if kind.Coordinator? then pc == Reviewing(r) else pc == Done(Raised(App(r)))
  }

  /** The claim: it takes the row exactly from the status that its kind of process works on,
      stamps it, and holds the row as it is then. */
  lemma Claims(s: State, who: nat, c: Choice)
    requires Possible(s, Act(who, c)) && c.fault.Works? && s.processes[who].pc.Claiming?
    ensures var k := s.processes[who];
            var t := Apply(s, Act(who, c));
            var from := if k.kind.Publisher? then Pending else Queued;
            if k.target < |s.store.rows| && s.store.rows[k.target].status == from
            then var r := s.store.rows[k.target].(status := Publishing, startedAt := Some(c.now));
                 t.store.rows == s.store.rows[k.target := r] && t.processes[who].pc == Loading(r)
            else t.store == s.store
                 && t.processes[who].pc == if k.kind.Publisher? then Done(Raised(App(NotClaimed))) else Rechecking
  {
  }

  /** A worker that lost the claim returns what somebody else has taken or settled. */
  lemma WorkerRechecks(s: State, who: nat, c: Choice)
    requires Possible(s, Act(who, c)) && c.fault.Works? && s.processes[who].pc.Rechecking?
    ensures var t := Apply(s, Act(who, c));
            var pc := t.processes[who].pc;
            && t.store == s.store
            && (Missing(s, who) ==> pc == FailingQueued(App(WorkerNotClaimed)))
            && (forall r :: Target(s, who, r) ==>
                  pc == if r.status in {Publishing, Published, Failed} then Done(Returned(r)) else FailingQueued(App(WorkerNotClaimed)))
  {
  }

  // ----- the provider -----

  /** A worker or publisher goes on to record a refusal; if it does not fit the columns the
      attempt itself raises, which a worker reports and a publisher lets through. */
  predicate Records(kind: Kind, pc: Pc, r: Refusal, fits: bool) {
    if fits then pc == Failing(r)
    else if kind.Worker? then pc == FailingQueued(Other)
    else pc == Done(Raised(Other))
  }

  /** What the provider did decides what is recorded: a response with both parts, if they fit, and
      otherwise the failure that it was. */
  lemma ProviderIsAnswered(s: State, who: nat, c: Choice)
    requires Possible(s, Act(who, c)) && s.processes[who].pc.Calling?
    ensures var k := s.processes[who];
            var pc := Apply(s, Act(who, c)).processes[who].pc;
            match c.answer
            case ApplicationFailure(code, message) => Records(k.kind, pc, FromProvider(code, message), |code| <= 100 && |message| <= 1000)
            case ProviderFailure(code, message) => Records(k.kind, pc, FromProvider(code, message), |code| <= 100 && |message| <= 1000)
            case OtherFailure => pc == Failing(ProviderCrashed)
            case Response(id, url) =>
              if id == "" || url == "" then pc == Failing(InvalidResponse)
              else if |id| <= 255 && |url| <= 2048 then pc == Completing(id, url)
              else Records(k.kind, pc, InvalidResponse, false)
  {
  }

  /** The last write of a success: it takes the row from PUBLISHING, and is what is returned. */
  lemma Completes(s: State, who: nat, c: Choice)
    requires Possible(s, Act(who, c)) && c.fault.Works? && s.processes[who].pc.Completing?
    ensures var k := s.processes[who];
            var t := Apply(s, Act(who, c));
            if k.target < |s.store.rows| && s.store.rows[k.target].status == Publishing
            then var r := s.store.rows[k.target].(status := Published, externalId := Some(k.pc.externalId),
                                                  externalUrl := Some(k.pc.externalUrl), publishedAt := Some(c.now), error := None);
                 t.store.rows == s.store.rows[k.target := r] && t.processes[who].pc == Done(Returned(r))
            else t.store == s.store
                 && t.processes[who].pc == if k.kind.Worker? then FailingQueued(App(Vanished)) else Done(Raised(App(Vanished)))
  {
  }

  /** The last write of a failure: it takes the row from PUBLISHING; the refusal is raised either way. */
  lemma Fails(s: State, who: nat, c: Choice)
    requires Possible(s, Act(who, c)) && c.fault.Works? && s.processes[who].pc.Failing?
    ensures var k := s.processes[who];
            var t := Apply(s, Act(who, c));
            && t.processes[who].pc == (if k.kind.Worker? then FailingQueued(App(k.pc.refusal)) else Done(Raised(App(k.pc.refusal))))
            && t.store.rows == if k.target < |s.store.rows| && s.store.rows[k.target].status == Publishing
                               then s.store.rows[k.target := s.store.rows[k.target].(status := Failed, error := Some(Because(k.pc.refusal)))]
                               else s.store.rows
  {
  }

  // ----- the worker's boundary -----

  /** After any exception the worker marks its row FAILED with the generic error, first if it is
      still QUEUED and then if it is PUBLISHING, and reports the exception; after an application
      error it reads the row once more before. */
  lemma BoundaryWrites(s: State, who: nat, c: Choice)
    requires Possible(s, Act(who, c)) && c.fault.Works? && (s.processes[who].pc.FailingQueued? || s.processes[who].pc.FailingPublishing?)
    ensures var k := s.processes[who];
            var t := Apply(s, Act(who, c));
            var from := if k.pc.FailingQueued? then Queued else Publishing;
            var hit := k.target < |s.store.rows| && s.store.rows[k.target].status == from;
            && t.store.rows == (if hit then s.store.rows[k.target := s.store.rows[k.target].(status := Failed, error := Some(WorkerError))]
                                else s.store.rows)
            && t.processes[who].pc == if !hit && k.pc.FailingQueued? then FailingPublishing(k.pc.problem)
                                      else if k.pc.problem.App? then Confirming(k.pc.problem)
                                      else Done(Reported(k.pc.problem))
  {
  }

  lemma BoundaryReports(s: State, who: nat, c: Choice)
    requires Possible(s, Act(who, c)) && c.fault.Works? && s.processes[who].pc.Confirming?
    ensures var t := Apply(s, Act(who, c)); t.store == s.store && t.processes[who].pc == Done(Reported(s.processes[who].pc.problem))
  {
  }

  // ----- the queue -----

  /** The transition to QUEUED: it takes the row from PENDING with the schedule and the time of
      the request and a new task id. */
  lemma Queues(s: State, who: nat, c: Choice)
    requires Possible(s, Act(who, c)) && c.fault.Works? && s.processes[who].pc.Queueing?
    ensures var k := s.processes[who];
            var t := Apply(s, Act(who, c));
            if k.target < |s.store.rows| && s.store.rows[k.target].status == Pending
            then var r := s.store.rows[k.target].(status := Queued, scheduledAt := k.eta, queuedAt := Some(k.since),
                                                  taskId := Some(c.task), error := None);
                 t.store.rows == s.store.rows[k.target := r] && t.processes[who].pc == Dispatching(r, c.task)
            else t.store == s.store && Refuses(k.kind, t.processes[who].pc, NotQueueable)
  {
  }

  /** The message names the publication, its task id and its schedule. The send counts only if it
      answers with that task id. */
  lemma Sends(s: State, who: nat, c: Choice)
    requires Possible(s, Act(who, c)) && s.processes[who].pc.Dispatching?
    ensures var k := s.processes[who];
            var t := Apply(s, Act(who, c));
            var message := Delivery(k.target, k.pc.task, k.eta);
            && t.store.rows == s.store.rows
            && t.store.broker == (if c.sending.delivered then s.store.broker + multiset{message} else s.store.broker)
            && t.processes[who].pc == if c.sending.returned != Some(k.pc.task) then Unqueueing
                                      else if k.kind.Coordinator? then Done(Ready(k.pc.row)) else Done(Returned(k.pc.row))
  {
  }

  /** When it does not, the row fails with the queue error if it is still QUEUED, and the error is
      raised either way. */
  lemma Unqueues(s: State, who: nat, c: Choice)
    requires Possible(s, Act(who, c)) && c.fault.Works? && s.processes[who].pc.Unqueueing?
    ensures var k := s.processes[who];
            var t := Apply(s, Act(who, c));
            && Refuses(k.kind, t.processes[who].pc, QueueFailed)
            && t.store.rows == if k.target < |s.store.rows| && s.store.rows[k.target].status == Queued
                               then s.store.rows[k.target := s.store.rows[k.target].(status := Failed, error := Some(Because(QueueFailed)))]
                               else s.store.rows
  {
  }

  // ----- the coordinator -----

  /** A workflow that has not completed is skipped, and one without a video reported. */
  lemma CoordinatorLooks(s: State, who: nat, c: Choice)
    requires Possible(s, Act(who, c)) && c.fault.Works? && (s.processes[who].pc.Checking? || s.processes[who].pc.Listing?)
    ensures var pc, next := s.processes[who].pc, Apply(s, Act(who, c)).processes[who].pc;
            && (pc.Checking? ==> next == if c.completed then Listing else Done(Skipped))
            && (pc.Listing? && (forall i :: 0 <= i < |c.artifacts| ==> c.artifacts[i].kind != "video" || c.artifacts[i].asset.None?) ==>
                  next == Done(Unpublished(NoFinalVideo, None)))
  {
  }

  /** With a row in hand the coordinator queues it if it is PENDING, with the time of that moment
      and no schedule; otherwise it is done. */
  predicate Holds(k: Process, row: Row, now: int) {
    k.target == row.id && if row.status == Pending then k.pc == Reading && k.since == now && k.eta.None? else k.pc == Done(Ready(row))
  }

  /** The coordinator adds a PENDING row under its execution, provider and asset exactly when the
      table has none, and otherwise looks for the one in the way. */
  lemma CoordinatorInserts(s: State, who: nat, c: Choice)
    requires Possible(s, Act(who, c)) && c.fault.Works? && s.processes[who].pc.Inserting?
    ensures var k := s.processes[who];
            var t := Apply(s, Act(who, c));
            if exists i :: 0 <= i < |s.store.rows| && InTheWay(k, k.pc.asset, s.store.rows[i])
            then t.store == s.store && t.processes[who] == k.(pc := Recovering(k.pc.asset))
            else var r := NewRow(|s.store.rows|, k.pc.asset, Some(k.kind.execution), k.kind.provider, k.kind.title);
                 t.store.rows == s.store.rows + [r] && Holds(t.processes[who], r, c.now)
  {
  }

  /** A row with the coordinator's execution, provider and asset. */
  predicate InTheWay(k: Process, asset: nat, r: Row) {
    k.kind.Coordinator? && r.execution == Some(k.kind.execution) && r.provider == k.kind.provider && r.asset == asset
  }

  lemma CoordinatorRecovers(s: State, who: nat, c: Choice)
    requires Possible(s, Act(who, c)) && c.fault.Works? && s.processes[who].pc.Recovering?
    ensures var k := s.processes[who];
            var t := Apply(s, Act(who, c));
            && t.store == s.store
            && if exists i :: 0 <= i < |s.store.rows| && InTheWay(k, k.pc.asset, s.store.rows[i])
               then exists i :: 0 <= i < |s.store.rows| && InTheWay(k, k.pc.asset, s.store.rows[i])
                                && Holds(t.processes[who], s.store.rows[i], c.now)
               else t.processes[who].pc == Done(Unpublished(AutomaticError, None))
  {
  }

  /** After a queueing error the coordinator reports the row as it is then, unless it is gone or
      still PENDING. */
  lemma CoordinatorReviews(s: State, who: nat, c: Choice)
    requires Possible(s, Act(who, c)) && c.fault.Works? && s.processes[who].pc.Reviewing?
    ensures var t := Apply(s, Act(who, c));
            var cause := Because(s.processes[who].pc.refusal);
            && t.store == s.store
            && (Missing(s, who) ==> t.processes[who].pc == Done(Unpublished(cause, None)))
            && (forall r :: Target(s, who, r) ==>
                  t.processes[who].pc == Done(Unpublished(cause, if r.status == Pending then None else Some(r))))
  {
  }

  // ----- repository calls that raise -----

  /** A repository call that raises ends publishers and enqueuers with the exception, coordinators
      with the automatic error, and takes workers to their boundary, or past it when they are
      there. Only the asset lookup of a claimed publication is caught on the spot. */
  lemma RepositoryRaises(s: State, who: nat, c: Choice)
    requires Possible(s, Act(who, c)) && !c.fault.Works? && !s.processes[who].pc.Calling? && !s.processes[who].pc.Dispatching?
    ensures var k := s.processes[who];
            var pc := Apply(s, Act(who, c)).processes[who].pc;
            pc == if k.pc.Loading? then Failing(ProviderCrashed)
                  else if k.kind.Coordinator? then Done(Unpublished(AutomaticError, None))
                  else if k.kind.Worker? && !k.pc.FailingQueued? && !k.pc.FailingPublishing? && !k.pc.Confirming? then FailingQueued(Other)
                  else Done(Raised(Other))
  {
  }
}
