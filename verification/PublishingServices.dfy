/** The services as they are written, one method a source method. Each is proved to follow the
    program counter of its process from its first call to its return, whatever the others do
    between its calls and whichever calls raise, so every run of them is a run of the protocol. */
module PublishingServices {
  import opened Values
  import opened PublishingErrors
  import opened Publications
  import opened PublishingProtocol
  import opened PublishingWorld

  /** apps/api/publishing/service.py */
  class PublishingService {
    const world: World

    constructor (world: World)
      ensures this.world == world
    {
      this.world := world;
    }

    /** Synchronously claim and publish a pending publication. */
    method Publish(me: nat, id: nat) returns (r: Result<Row, Problem>)
      requires world.At(me, NewPublisher(id))
      modifies world, world.repository
      ensures world.Running(me) && old(world.trace) <= world.trace
      ensures world.processes[me].pc == Done(if r.Ok? then Returned(r.value) else Raised(r.error))
    {
      var publication :- world.GetById(me, id);
      if publication.None? {
        return Err(App(NotFound));
      }
      if !publication.value.status.Pending? {
        return Err(App(NotPending));
      }
      var publishing :- world.TransitionStatus(me, publication.value.id, Pending, Publishing, Start(world.Now().now));
      if publishing.None? {
        return Err(App(NotClaimed));
      }
      r := PublishClaimed(me, publishing.value);
    }

    /** Claim a queued publication and execute it. */
    method PublishQueued(me: nat, id: nat) returns (r: Result<Row, Problem>)
      requires world.At(me, NewWorker(id))
      modifies world, world.repository
      ensures world.Running(me) && world.processes[me].kind.Worker? && world.processes[me].target == id
      ensures world.processes[me].pc == if r.Ok? then Done(Returned(r.value)) else FailingQueued(r.error)
      ensures old(world.trace) <= world.trace
    {
      var publication :- world.GetById(me, id);
      if publication.None? {
        return Err(App(NotFound));
      }
      if Settled(publication.value.status) {
        return Ok(publication.value);
      }
      if !publication.value.status.Queued? {
        return Err(App(WorkerNotQueued));
      }
      var publishing :- world.TransitionStatus(me, publication.value.id, Queued, Publishing, Start(world.Now().now));
      if publishing.None? {
        var current :- world.GetById(me, publication.value.id);
        if current.Some? && Settled(current.value.status) {
          return Ok(current.value);
        }
        return Err(App(WorkerNotClaimed));
      }
      r := PublishClaimed(me, publishing.value);
    }

    /** The work on a claimed publication, up to its last write. */
    method PublishClaimed(me: nat, publication: Row) returns (r: Result<Row, Problem>)
      requires world.Running(me) && world.processes[me].pc == Loading(publication)
      requires publication.id == world.processes[me].target
      modifies world, world.repository
      ensures world.Running(me) && world.processes[me] == old(world.processes[me]).(pc := world.processes[me].pc)
      ensures world.processes[me].pc == if r.Ok? then Done(Returned(r.value)) else Raise(world.processes[me], r.error)
      ensures old(world.trace) <= world.trace
    {
      var raised, found := world.Consult(me, FetchAsset(publication.asset));
      if raised {
        r := Fail(me, publication.id, ProviderCrashed);
        return;
      }
      var refusal := Vet(found.asset, found.supported);
      if refusal.Some? {
        r := Fail(me, publication.id, refusal.value);
        return;
      }
      r := CallProvider(me, publication, found.asset.value);
    }

    /** The call of the provider and the last write. */
    method CallProvider(me: nat, publication: Row, media: Asset) returns (r: Result<Row, Problem>)
      requires world.Running(me) && world.processes[me].pc == Calling(publication, media)
      requires publication.id == world.processes[me].target
      modifies world, world.repository
      ensures world.Running(me) && world.processes[me] == old(world.processes[me]).(pc := world.processes[me].pc)
      ensures world.processes[me].pc == if r.Ok? then Done(Returned(r.value)) else Raise(world.processes[me], r.error)
      ensures old(world.trace) <= world.trace
    {
      var answer := world.Upload(me, publication.id, publication.asset, publication.title, media);
      match answer
      case ApplicationFailure(code, message) => r := Fail(me, publication.id, FromProvider(code, message));
      case ProviderFailure(code, message) => r := Fail(me, publication.id, FromProvider(code, message));
      case OtherFailure => r := Fail(me, publication.id, ProviderCrashed);
      case Response(externalId, externalUrl) =>
        if externalId == "" || externalUrl == "" {
          r := Fail(me, publication.id, InvalidResponse);
          return;
        }
        if !SuccessFits(externalId, externalUrl) {
          return Err(Other);
        }
        r := Complete(me, publication.id, externalId, externalUrl);
    }

    method Complete(me: nat, id: nat, externalId: string, externalUrl: string) returns (r: Result<Row, Problem>)
      requires world.Running(me) && (world.processes[me].kind.Publisher? || world.processes[me].kind.Worker?)
      requires world.processes[me].pc == Completing(externalId, externalUrl) && id == world.processes[me].target
      modifies world, world.repository
      ensures world.Running(me) && world.processes[me] == old(world.processes[me]).(pc := world.processes[me].pc)
      ensures world.processes[me].pc == if r.Ok? then Done(Returned(r.value)) else Raise(world.processes[me], r.error)
      ensures old(world.trace) <= world.trace
    {
      var published :- world.TransitionStatus(me, id, Publishing, Published, Success(externalId, externalUrl, world.Now().now));
      if published.None? {
        return Err(App(Vanished));
      }
      r := Ok(published.value);
    }

    /** An exception handler of PublishClaimed: record the failure, then raise. */
    method Fail(me: nat, id: nat, refusal: Refusal) returns (r: Result<Row, Problem>)
      requires world.Running(me) && (world.processes[me].kind.Publisher? || world.processes[me].kind.Worker?)
      requires world.processes[me].pc == FailWith(world.processes[me], refusal) && id == world.processes[me].target
      modifies world, world.repository
      ensures world.Running(me) && world.processes[me] == old(world.processes[me]).(pc := world.processes[me].pc)
      ensures r.Err? && world.processes[me].pc == Raise(world.processes[me], r.error)
      ensures old(world.trace) <= world.trace
    {
      if !FailureFits(refusal) {
        return Err(Other);
      }
      var failed := world.TransitionStatus(me, id, Publishing, Failed, Failure(Because(refusal)));
      r := Err(if failed.Ok? then App(refusal) else Other);
    }

    /** A terminal state after a worker failure. */
    method FailQueuedOrPublishing(me: nat, id: nat, ghost p: Problem) returns (raised: bool)
      requires world.Running(me) && world.processes[me].pc == FailingQueued(p) && id == world.processes[me].target
      modifies world, world.repository
      ensures world.Running(me) && world.processes[me] == old(world.processes[me]).(pc := world.processes[me].pc)
      ensures world.processes[me].pc == if raised then Done(Raised(Other)) else AfterBoundary(p)
      ensures old(world.trace) <= world.trace
    {
      var failed := world.TransitionStatus(me, id, Queued, Failed, Failure(WorkerError));
      if failed.Ok? && failed.value.None? {
        failed := world.TransitionStatus(me, id, Publishing, Failed, Failure(WorkerError));
      }
      raised := failed.Err?;
    }
  }

  /** apps/worker/tasks.py: the worker's boundary around PublishQueued. */
  method RunPublication(service: PublishingService, me: nat, id: nat) returns (o: Outcome)
    requires service.world.At(me, NewWorker(id))
    modifies service.world, service.world.repository
    ensures service.world.Running(me) && service.world.processes[me].pc == Done(o)
    ensures old(service.world.trace) <= service.world.trace
  {
    var publication := service.PublishQueued(me, id);
    if publication.Ok? {
      return Returned(publication.value);
    }
    var raised := service.FailQueuedOrPublishing(me, id, publication.error);
    if raised {
      return Raised(Other);
    }
    if publication.error.App? {
      var failed := service.world.GetById(me, id);
      if failed.Err? {
        return Raised(Other);
      }
    }
    o := Reported(publication.error);
  }

  /** apps/api/publishing/queue.py */
  class PublishingQueueService {
    const world: World

    constructor (world: World)
      ensures this.world == world
    {
      this.world := world;
    }

    /** Process k is about to run enqueue with these arguments, its clock standing at now. */
    static predicate Entering(k: Process, id: nat, at: Option<Moment>, now: int) {
      k.target == id && k.since == now && (k.kind.Enqueuer? || k.kind.Coordinator?)
      && match ValidateSchedule(at, now)
         case Err(e) => k.pc == Raise(k.(pc := Reading), App(e))
         case Ok(eta) => k.pc == Reading && k.eta == eta
    }

    method Enqueue(me: nat, id: nat, at: Option<Moment>, now: int) returns (r: Result<Row, Problem>)
      requires world.Running(me) && Entering(world.processes[me], id, at, now)
      modifies world, world.repository
      ensures world.Running(me) && world.processes[me] == old(world.processes[me]).(pc := world.processes[me].pc)
      ensures world.processes[me].pc ==
                if r.Ok? then Delivered(world.processes[me], r.value)
                else Raise(old(world.processes[me]).(pc := Reading), r.error)
      ensures old(world.trace) <= world.trace
    {
      var schedule := ValidateSchedule(at, now);
      if schedule.Err? {
        return Err(App(schedule.error));
      }
      var publication :- world.GetById(me, id);
      if publication.None? || !publication.value.status.Pending? {
        return Err(App(if publication.None? then NotFound else NotQueueable));
      }
      var task := world.Now().task;
      var queued :- world.TransitionStatus(me, id, Pending, Queued, Write.Enqueue(schedule.value, now, task));
      if queued.None? {
        return Err(App(NotQueueable));
      }
      r := Dispatch(me, queued.value, Delivery(id, task, schedule.value));
    }

    /** Send the message; unless its task id comes back the publication fails. */
    method Dispatch(me: nat, queued: Row, m: Delivery) returns (r: Result<Row, Problem>)
      requires world.Running(me) && world.processes[me].pc == Dispatching(queued, m.task)
      requires m.publication == world.processes[me].target && m.eta == world.processes[me].eta
      modifies world, world.repository
      ensures world.Running(me) && world.processes[me] == old(world.processes[me]).(pc := world.processes[me].pc)
      ensures world.processes[me].pc ==
                if r.Ok? then Delivered(world.processes[me], r.value)
                else Raise(old(world.processes[me]).(pc := Reading), r.error)
      ensures old(world.trace) <= world.trace
    {
      var returned := world.Send(me, m);
      if returned != Some(m.task) {
        var failed :- world.TransitionStatus(me, m.publication, Queued, Failed, Failure(Because(QueueFailed)));
        return Err(App(QueueFailed));
      }
      r := Ok(queued);
    }
  }

  /** apps/api/publishing/automatic.py */
  class AutomaticPublishingCoordinator {
    const world: World
    const queue: PublishingQueueService

    constructor (world: World, queue: PublishingQueueService)
      ensures this.world == world && this.queue == queue
    {
      this.world, this.queue := world, queue;
    }

    /** The code that handle_completion reports for an exception. */
    static function Reported(p: Problem): Cause {
      if p.App? then Because(p.refusal) else AutomaticError
    }

    /** The enabled trigger inside the failure boundary of handle_completion. */
    method HandleEnabled(me: nat, execution: nat, provider: string, title: string) returns (o: Outcome)
      requires world.At(me, NewCoordinator(execution, provider, title)) && queue.world == world
      modifies world, world.repository
      ensures world.Running(me) && world.processes[me].pc == Done(o)
      ensures old(world.trace) <= world.trace
    {
      var raised, found := world.Consult(me, FetchExecution(execution));
      if raised {
        return Unpublished(AutomaticError, None);
      }
      if !found.completed {
        return Skipped;
      }
      raised, found := world.Consult(me, ListArtifacts(execution));
      if raised {
        return Unpublished(AutomaticError, None);
      }
      var video := FinalVideo(found.artifacts);
      if video.None? {
        return Unpublished(NoFinalVideo, None);
      }
      if !CreationFits(provider, title) {
        return Unpublished(AutomaticError, None);
      }
      var now, publication := CreateAutomatic(me, video.value.asset.value, Key(execution, provider, video.value.asset.value), title);
      if publication.Err? {
        return Unpublished(Reported(publication.error), None);
      }
      if !publication.value.status.Pending? {
        return Ready(publication.value);
      }
      o := QueuePending(me, publication.value, now);
    }

    /** Queue a pending publication; an application error is reported with the row as it is then. */
    method QueuePending(me: nat, publication: Row, now: int) returns (o: Outcome)
      requires world.Running(me) && world.processes[me].kind.Coordinator? && queue.world == world
      requires PublishingQueueService.Entering(world.processes[me], publication.id, None, now)
      modifies world, world.repository
      ensures world.Running(me) && world.processes[me].pc == Done(o)
      ensures old(world.trace) <= world.trace
    {
      var queued := queue.Enqueue(me, publication.id, None, now);
      if queued.Ok? {
        return Ready(queued.value);
      }
      if queued.error.Other? {
        return Unpublished(AutomaticError, None);
      }
      var current := world.GetById(me, publication.id);
      if current.Err? {
        return Unpublished(AutomaticError, None);
      }
      if current.value.None? || current.value.value.status.Pending? {
        return Unpublished(Reported(queued.error), None);
      }
      o := Unpublished(Reported(queued.error), current.value);
    }

    /** Process k has its publication, and goes on to queue it if it is pending. */
    static predicate Holds(k: Process, now: int, r: Result<Row, Problem>) {
      match r
      case Err(e) => k.pc == Done(Unpublished(Reported(e), None))
      case Ok(row) =>
        if row.status.Pending? then k.kind.Coordinator? && PublishingQueueService.Entering(k, row.id, None, now)
        else k.pc == Done(Ready(row))
    }

    /** create_automatic of the service and of the repository; now is the clock as it stands
        when the publication is at hand. */
    method CreateAutomatic(me: nat, asset: nat, key: Key, title: string) returns (now: int, r: Result<Row, Problem>)
      requires world.Running(me) && world.processes[me].kind.Coordinator? && world.processes[me].pc == Vetting(asset)
      requires key == KeyFor(world.processes[me], asset) && title == world.processes[me].kind.title
      modifies world, world.repository
      ensures world.Running(me) && world.processes[me].kind == old(world.processes[me].kind)
      ensures Holds(world.processes[me], now, r)
      ensures old(world.trace) <= world.trace
    {
      var raised, found := world.Consult(me, FetchAsset(asset));
      now := 0;
      if raised {
        return now, Err(Other);
      }
      var refusal := Vet(found.asset, found.supported);
      if refusal.Some? {
        return now, Err(App(refusal.value));
      }
      now, r := InsertOrFind(me, asset, key, title);
    }

    /** create_automatic of the repository: insert once, or find the row in the way. */
    method InsertOrFind(me: nat, asset: nat, key: Key, title: string) returns (now: int, r: Result<Row, Problem>)
      requires world.Running(me) && world.processes[me].kind.Coordinator? && world.processes[me].pc == Inserting(asset)
      requires key == KeyFor(world.processes[me], asset) && title == world.processes[me].kind.title
      modifies world, world.repository
      ensures world.Running(me) && world.processes[me].kind == old(world.processes[me].kind)
      ensures Holds(world.processes[me], now, r)
      ensures old(world.trace) <= world.trace
    {
      now := world.Now().now;
      var inserted := world.Insert(me, key, title);
      if inserted.Err? {
        return now, Err(Other);
      }
      if inserted.value.Some? {
        return now, Ok(inserted.value.value);
      }
      now := world.Now().now;
      var existing := world.GetAutomatic(me, key);
      if existing.Err? || existing.value.None? {
        return now, Err(Other);
      }
      r := Ok(existing.value.value);
    }
  }
}
