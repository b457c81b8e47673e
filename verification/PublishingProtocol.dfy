/** Publishers, workers, enqueuers and completion coordinators as processes over one
    publications table and one broker. A process is a program counter: the call it makes
    next (CallOf) and how it goes on with the reply (Resume). Every repository call is one
    atomic step; what it returned is a snapshot. Sources: apps/api/publishing/service.py,
    queue.py, automatic.py, repository.py and apps/worker/tasks.py. */
module PublishingProtocol {
  import opened Values
  import opened Sequences
  import opened PublishingErrors
  import opened Publications

  datatype Asset = Asset(contentType: string, objectKey: string, size: int)

  predicate Publishable(a: Asset) {
    "video/" <= a.contentType && a.objectKey != "" && a.size > 0
  }

  /** Why an asset with this row cannot be published, if so. */
  function Vet(a: Option<Asset>, supported: bool): Option<Refusal> {
    if a.None? then Some(AssetMissing)
    else if !Publishable(a.value) then Some(AssetInvalid)
    else if !supported then Some(UnsupportedProvider)
    else None
  }

  datatype Artifact = Artifact(createdAt: int, id: nat, kind: string, asset: Option<nat>)

  predicate IsFinal(a: Artifact) {
    a.kind == "video" && a.asset.Some?
  }

  /** The last video artifact with an asset. */
  function FinalVideo(artifacts: seq<Artifact>): (r: Option<Artifact>)
    ensures r.Some? ==> r.value in artifacts && IsFinal(r.value)
    ensures r.None? ==> forall i :: 0 <= i < |artifacts| ==> !IsFinal(artifacts[i])
  {
    if artifacts == [] then None
    else if IsFinal(artifacts[|artifacts| - 1]) then Some(artifacts[|artifacts| - 1])
    else FinalVideo(artifacts[..|artifacts| - 1])
  }

  /** A datetime: wall time, and the offset of its zone if it has one. */
  datatype Moment = Moment(wall: int, offset: Option<int>)

  function ValidateSchedule(at: Option<Moment>, now: int): Result<Option<int>, Refusal> {
    if at.None? then Ok(None)
    else if at.value.offset.None? then Err(ScheduleWithoutZone)
    else
      var normalized := at.value.wall - at.value.offset.value;
      if normalized <= now then Err(ScheduleInPast) else Ok(Some(normalized))
  }

  /** What provider.publish does: a response, or one of the three kinds of exception. */
  datatype Answer =
    | Response(externalId: string, externalUrl: string)
    | ApplicationFailure(code: string, message: string)
    | ProviderFailure(code: string, message: string)
    | OtherFailure

  datatype Delivery = Delivery(publication: nat, task: nat, eta: Option<int>)

  /** Whether the broker got the message, and the task id returned, if send returned. */
  datatype Sending = Sending(delivered: bool, returned: Option<nat>)

  /** When a repository call raises: never, before its effect, or after it. */
  datatype Fault = Works | Before | After

  /** Everything outside this model that one step can depend on. */
  datatype Choice = Choice(
    fault: Fault,
    now: int,
    task: nat,
    asset: Option<Asset>,
    supported: bool,
    answer: Answer,
    sending: Sending,
    completed: bool,
    artifacts: seq<Artifact>)

  datatype Kind =
    | Publisher
    | Worker
    | Enqueuer
    | Coordinator(execution: nat, provider: string, title: string)

  datatype Outcome =
    | Returned(row: Row)
    | Raised(problem: Problem)
    | Reported(problem: Problem)
    | Skipped
    | Ready(row: Row)
    | Unpublished(cause: Cause, current: Option<Row>)

  datatype Pc =
    | Reading
    | Claiming
    | Rechecking
    | Loading(row: Row)
    | Calling(row: Row, media: Asset)
    | Failing(refusal: Refusal)
    | Completing(externalId: string, externalUrl: string)
    | FailingQueued(problem: Problem)
    | FailingPublishing(problem: Problem)
    | Confirming(problem: Problem)
    | Queueing
    | Dispatching(row: Row, task: nat)
    | Unqueueing
    | Checking
    | Listing
    | Vetting(asset: nat)
    | Inserting(asset: nat)
    | Recovering(asset: nat)
    | Reviewing(refusal: Refusal)
    | Done(outcome: Outcome)

  /** target is the publication; since and eta are the enqueuer's now and normalized schedule. */
  datatype Process = Process(kind: Kind, target: nat, since: int, eta: Option<int>, pc: Pc, alive: bool)

  datatype Call =
    | Read(id: nat)
    | Transition(id: nat, from: Status, to: Status, w: Write)
    | Insert(key: Key, title: string)
    | Search(key: Key)
    | Upload(id: nat, asset: nat, title: string, media: Asset)
    | Send(message: Delivery)
    | FetchAsset(asset: nat)
    | FetchExecution(execution: nat)
    | ListArtifacts(execution: nat)
    | Nothing

  /** The row a repository call returned, or that it raised. */
  datatype Reply = Got(row: Option<Row>) | Threw

  // ----- the shared store -----

  /** What provider.publish was given, the asset row as it was read included, and what it did. */
  datatype Handover = Handover(asset: nat, title: string, media: Asset, answer: Answer)

  /** uploads, handovers, dispatched, claims and queuers are histories: the publications handed to
      provider.publish, the messages sent, and who moved a row into PUBLISHING and QUEUED. */
  datatype Store = Store(
    rows: Table,
    broker: multiset<Delivery>,
    dispatched: seq<Delivery>,
    uploads: seq<nat>,
    handovers: map<nat, Handover>,
    claims: map<nat, nat>,
    queuers: map<nat, nat>)

  const EMPTY := Store([], multiset{}, [], [], map[], map[], map[])

  function TransitionStore(s: Store, me: nat, id: nat, from: Status, to: Status, w: Write): Store {
    if !Hits(s.rows, id, from) then s
    else s.(rows := CasRows(s.rows, id, from, to, w),
            claims := if to.Publishing? then s.claims[id := me] else s.claims,
            queuers := if to.Queued? then s.queuers[id := me] else s.queuers)
  }

  /** The effect of a call that works. */
  function Effect(s: Store, me: nat, call: Call, c: Choice): Store {
    match call
    case Transition(id, from, to, w) => TransitionStore(s, me, id, from, to, w)
    case Insert(key, title) => s.(rows := InsertRows(s.rows, key, title))
    case Upload(id, asset, title, media) =>
      s.(uploads := s.uploads + [id], handovers := s.handovers[id := Handover(asset, title, media, c.answer)])
    case Send(message) =>
      if c.sending.delivered then s.(broker := s.broker + multiset{message}, dispatched := s.dispatched + [message]) else s
    case _ => s
  }

  function Answered(s: Store, call: Call): Option<Row> {
    match call
    case Read(id) => Find(s.rows, id)
    case Transition(id, from, to, w) => CasRow(s.rows, id, from, to, w)
    case Insert(key, title) => InsertRow(s.rows, key, title)
    case Search(key) => FindKey(s.rows, key)
    case _ => None
  }

  /** Provider and broker calls carry their own failures in the choice. */
  predicate OnRepository(call: Call) {
    !call.Upload? && !call.Send?
  }

  function FaultOf(call: Call, c: Choice): Fault {
    if OnRepository(call) then c.fault else Works
  }

  function StoreAfter(s: Store, me: nat, call: Call, c: Choice): Store {
    if FaultOf(call, c).Before? then s else Effect(s, me, call, c)
  }

  function ReplyOf(s: Store, call: Call, c: Choice): Reply {
    if FaultOf(call, c).Works? then Got(Answered(s, call)) else Threw
  }

  // ----- the processes -----

  function KeyFor(k: Process, asset: nat): Key
    requires k.kind.Coordinator?
  {
    Key(k.kind.execution, k.kind.provider, asset)
  }

  /** A program counter that its kind of process can be at. */
  predicate Sensible(k: Process) {
    match k.pc
    case Rechecking | FailingQueued(_) | FailingPublishing(_) | Confirming(_) => k.kind.Worker?
    case Claiming | Loading(_) | Calling(_, _) | Failing(_) | Completing(_, _) => k.kind.Worker? || k.kind.Publisher?
    case Queueing | Dispatching(_, _) | Unqueueing => k.kind.Enqueuer? || k.kind.Coordinator?
    case Checking | Listing | Vetting(_) | Inserting(_) | Recovering(_) | Reviewing(_) => k.kind.Coordinator?
    case Reading | Done(_) => true
  }

  function CallOf(k: Process, c: Choice): Call
    requires Sensible(k)
  {
    match k.pc
    case Reading | Rechecking | Confirming(_) | Reviewing(_) => Read(k.target)
    case Claiming => Transition(k.target, if k.kind.Worker? then Queued else Pending, Publishing, Start(c.now))
    case Calling(row, media) => Upload(k.target, row.asset, row.title, media)
    case Failing(r) => Transition(k.target, Publishing, Failed, Failure(Because(r)))
    case Completing(id, url) => Transition(k.target, Publishing, Published, Success(id, url, c.now))
    case FailingQueued(_) => Transition(k.target, Queued, Failed, Failure(WorkerError))
    case FailingPublishing(_) => Transition(k.target, Publishing, Failed, Failure(WorkerError))
    case Queueing => Transition(k.target, Pending, Queued, Enqueue(k.eta, k.since, c.task))
    case Dispatching(_, task) => Send(Delivery(k.target, task, k.eta))
    case Unqueueing => Transition(k.target, Queued, Failed, Failure(Because(QueueFailed)))
    case Inserting(asset) => Insert(KeyFor(k, asset), k.kind.title)
    case Recovering(asset) => Search(KeyFor(k, asset))
    case Loading(row) => FetchAsset(row.asset)
    case Vetting(asset) => FetchAsset(asset)
    case Checking => FetchExecution(k.kind.execution)
    case Listing => ListArtifacts(k.kind.execution)
    case Done(_) => Nothing
  }

  /** Where an exception takes a process. */
  function Raise(k: Process, p: Problem): Pc {
    match k.kind
    case Publisher | Enqueuer => Done(Raised(p))
    case Worker => FailingQueued(p)
    case Coordinator(_, _, _) =>
      if p.Other? then Done(Unpublished(AutomaticError, None))
      else if Enqueuing(k.pc) then Reviewing(p.refusal)
      else Done(Unpublished(Because(p.refusal), None))
  }

  /** Inside the coordinator's call of enqueue. */
  predicate Enqueuing(pc: Pc) {
    pc.Reading? || pc.Queueing? || pc.Dispatching? || pc.Unqueueing?
  }

  /** Building the failure update comes before the repository call. */
  function FailWith(k: Process, r: Refusal): Pc {
    if FailureFits(r) then Failing(r) else Raise(k, Other)
  }

  function Settled(s: Status): bool {
    s.Publishing? || s.Published? || s.Failed?
  }

  function AfterRead(k: Process, found: Option<Row>): Pc {
    if found.None? then Raise(k, App(NotFound))
    else
      var status := found.value.status;
      match k.kind
      case Publisher => if status.Pending? then Claiming else Raise(k, App(NotPending))
      case Worker =>
        if Settled(status) then Done(Returned(found.value))
        else if status.Queued? then Claiming
        else Raise(k, App(WorkerNotQueued))
      case Enqueuer | Coordinator(_, _, _) => if status.Pending? then Queueing else Raise(k, App(NotQueueable))
  }

  function AfterClaim(k: Process, claimed: Option<Row>): Pc {
    if claimed.Some? then Loading(claimed.value)
    else if k.kind.Worker? then Rechecking
    else Raise(k, App(NotClaimed))
  }

  function AfterRecheck(k: Process, found: Option<Row>): Pc {
    if found.Some? && Settled(found.value.status) then Done(Returned(found.value))
    else Raise(k, App(WorkerNotClaimed))
  }

  function AfterLoad(k: Process, row: Row, c: Choice): Pc {
    var refusal := Vet(c.asset, c.supported);
    if refusal.Some? then FailWith(k, refusal.value) else Calling(row, c.asset.value)
  }

  function AfterCall(k: Process, a: Answer): Pc {
    match a
    case ApplicationFailure(code, message) => FailWith(k, FromProvider(code, message))
    case ProviderFailure(code, message) => FailWith(k, FromProvider(code, message))
    case OtherFailure => FailWith(k, ProviderCrashed)
    case Response(id, url) =>
      if id == "" || url == "" then FailWith(k, InvalidResponse)
      else if SuccessFits(id, url) then Completing(id, url)
      else Raise(k, Other)
  }

  /** The end of the worker's exception handlers. */
  function AfterBoundary(p: Problem): Pc {
    if p.App? then Confirming(p) else Done(Reported(p))
  }

  function AfterSend(k: Process, row: Row, task: nat, c: Choice): Pc {
    if c.sending.returned == Some(task) then Delivered(k, row) else Unqueueing
  }

  function Delivered(k: Process, row: Row): Pc {
    if k.kind.Coordinator? then Done(Ready(row)) else Done(Returned(row))
  }

  /** The coordinator with a publication in hand; enqueue reads its clock first. */
  function WithRow(k: Process, row: Row, c: Choice): Process {
    if row.status.Pending? then k.(target := row.id, since := c.now, eta := None, pc := Reading)
    else k.(target := row.id, pc := Done(Ready(row)))
  }

  /** The creation contract of a publication. */
  predicate CreationFits(provider: string, title: string) {
    1 <= |provider| <= MAX_PROVIDER && 1 <= |title| <= MAX_TITLE
  }

  /** Building the creation contract comes before its asset is looked up. */
  function AfterListing(k: Process, c: Choice): Pc
    requires k.kind.Coordinator?
  {
    match FinalVideo(c.artifacts)
    case None => Done(Unpublished(NoFinalVideo, None))
    case Some(a) => if CreationFits(k.kind.provider, k.kind.title) then Vetting(a.asset.value) else Raise(k, Other)
  }

  function AfterReview(r: Refusal, found: Option<Row>): Pc {
    if found.None? || found.value.status.Pending? then Done(Unpublished(Because(r), None))
    else Done(Unpublished(Because(r), found))
  }

  /** An exception out of a repository call. Only the asset lookup of a claimed publication
      is inside a try block of its own. */
  function AfterThrow(k: Process): Pc {
    match k.pc
    case Loading(_) => FailWith(k, ProviderCrashed)
    case FailingQueued(_) | FailingPublishing(_) | Confirming(_) => Done(Raised(Other))
    case _ => Raise(k, Other)
  }

  function AfterReply(k: Process, found: Option<Row>, c: Choice): Process
    requires Sensible(k)
  {
    match k.pc
    case Reading => k.(pc := AfterRead(k, found))
    case Claiming => k.(pc := AfterClaim(k, found))
    case Rechecking => k.(pc := AfterRecheck(k, found))
    case Loading(row) => k.(pc := AfterLoad(k, row, c))
    case Calling(_, _) => k.(pc := AfterCall(k, c.answer))
    case Failing(r) => k.(pc := Raise(k, App(r)))
    case Completing(_, _) => k.(pc := if found.Some? then Done(Returned(found.value)) else Raise(k, App(Vanished)))
    case FailingQueued(p) => k.(pc := if found.Some? then AfterBoundary(p) else FailingPublishing(p))
    case FailingPublishing(p) => k.(pc := AfterBoundary(p))
    case Confirming(p) => k.(pc := Done(Reported(p)))
    case Queueing => k.(pc := if found.Some? then Dispatching(found.value, c.task) else Raise(k, App(NotQueueable)))
    case Dispatching(row, task) => k.(pc := AfterSend(k, row, task, c))
    case Unqueueing => k.(pc := Raise(k, App(QueueFailed)))
    case Checking => k.(pc := if c.completed then Listing else Done(Skipped))
    case Listing => k.(pc := AfterListing(k, c))
    case Vetting(asset) =>
      var refusal := Vet(c.asset, c.supported);
      k.(pc := if refusal.Some? then Raise(k, App(refusal.value)) else Inserting(asset))
    case Inserting(asset) => if found.Some? then WithRow(k, found.value, c) else k.(pc := Recovering(asset))
    case Recovering(_) => if found.Some? then WithRow(k, found.value, c) else k.(pc := Raise(k, Other))
    case Reviewing(r) => k.(pc := AfterReview(r, found))
    case Done(_) => k
  }

  function Resume(k: Process, reply: Reply, c: Choice): (r: Process)
    requires Sensible(k)
    ensures r.kind == k.kind && r.alive == k.alive && Sensible(r)
  {
    match reply
    case Threw => k.(pc := AfterThrow(k))
    case Got(found) => AfterReply(k, found, c)
  }

  function NewPublisher(id: nat): Process {
    Process(Publisher, id, 0, None, Reading, true)
  }

  function NewWorker(id: nat): Process {
    Process(Worker, id, 0, None, Reading, true)
  }

  /** enqueue reads its clock and checks the schedule before anything else. */
  function NewEnqueuer(id: nat, at: Option<Moment>, now: int): Process {
    match ValidateSchedule(at, now)
    case Err(r) => Process(Enqueuer, id, now, None, Done(Raised(App(r))), true)
    case Ok(eta) => Process(Enqueuer, id, now, eta, Reading, true)
  }

  function NewCoordinator(execution: nat, provider: string, title: string): Process {
    Process(Coordinator(execution, provider, title), 0, 0, None, Checking, true)
  }

  // ----- runs -----

  datatype State = State(store: Store, processes: seq<Process>)

  /** Requests arrive, messages are delivered, duplicated and lost, processes step and vanish. */
  datatype Event =
    | Act(who: nat, choice: Choice)
    | Publish(id: nat)
    | EnqueueAt(id: nat, at: Option<Moment>, now: int)
    | Complete(execution: nat, provider: string, title: string)
    | Deliver(message: Delivery)
    | Create(asset: nat, provider: string, title: string)
    | Duplicate(message: Delivery)
    | Lose(message: Delivery)
    | Crash(who: nat)

  predicate Possible(s: State, e: Event) {
    match e
    case Act(who, _) =>
      who < |s.processes| && s.processes[who].alive && !s.processes[who].pc.Done? && Sensible(s.processes[who])
    case Deliver(m) => m in s.store.broker
    case Duplicate(m) => m in s.store.broker
    case Lose(m) => m in s.store.broker
    case Crash(who) => who < |s.processes|
    case _ => true
  }

  function ActStore(s: State, who: nat, c: Choice): Store
    requires Possible(s, Act(who, c))
  {
    StoreAfter(s.store, who, CallOf(s.processes[who], c), c)
  }

  function ActProcess(s: State, who: nat, c: Choice): Process
    requires Possible(s, Act(who, c))
  {
    Resume(s.processes[who], ReplyOf(s.store, CallOf(s.processes[who], c), c), c)
  }

  function Apply(s: State, e: Event): State
    requires Possible(s, e)
  {
    match e
    case Act(who, c) => State(ActStore(s, who, c), s.processes[who := ActProcess(s, who, c)])
    case Publish(id) => s.(processes := s.processes + [NewPublisher(id)])
    case EnqueueAt(id, at, now) => s.(processes := s.processes + [NewEnqueuer(id, at, now)])
    case Complete(execution, provider, title) => s.(processes := s.processes + [NewCoordinator(execution, provider, title)])
    case Deliver(m) => s.(processes := s.processes + [NewWorker(m.publication)])
    case Create(asset, provider, title) =>
      s.(store := s.store.(rows := s.store.rows + [NewRow(|s.store.rows|, asset, None, provider, title)]))
    case Duplicate(m) => s.(store := s.store.(broker := s.store.broker + multiset{m}))
    case Lose(m) => s.(store := s.store.(broker := s.store.broker - multiset{m}))
    case Crash(who) => s.(processes := s.processes[who := s.processes[who].(alive := false)])
  }

  const INITIAL := State(EMPTY, [])

  predicate CanRun(s: State, events: seq<Event>)
    decreases |events|
  {
    events == [] || (Possible(s, events[0]) && CanRun(Apply(s, events[0]), events[1..]))
  }

  function Reach(s: State, events: seq<Event>): State
    requires CanRun(s, events)
    decreases |events|
  {
    if events == [] then s else Reach(Apply(s, events[0]), events[1..])
  }

  /** events is a run from s to t. */
  predicate Run(s: State, events: seq<Event>, t: State) {
    CanRun(s, events) && Reach(s, events) == t
  }

  lemma {:induction false} RunThen(s: State, events: seq<Event>, t: State, more: seq<Event>, u: State)
    requires Run(s, events, t) && Run(t, more, u)
    ensures Run(s, events + more, u)
    decreases |events|
  {
    if events == [] {
      assert events + more == more;
    } else {
      RunThen(Apply(s, events[0]), events[1..], t, more, u);
      DropAppend(events, more, 1);
    }
  }

  lemma RunOne(s: State, events: seq<Event>, t: State, e: Event)
    requires Run(s, events, t) && Possible(t, e)
    ensures Run(s, events + [e], Apply(t, e))
  {
    assert [e][1..] == [];
    assert CanRun(Apply(t, e), [e][1..]);
    RunThen(s, events, t, [e], Apply(t, e));
  }

  /** No repository call raises. */
  predicate Healthy(e: Event) {
    e.Act? ==> e.choice.fault.Works?
  }
}
