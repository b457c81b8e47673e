/** What holds besides when repository calls do not raise: processes may still vanish at any
    step, messages repeat, and brokers and providers fail. */
module PublishingClaims {
  import opened Values
  import opened PublishingErrors
  import opened Publications
  import opened PublishingProtocol
  import opened PublishingSafety
  import PublishingAnswers

  ghost predicate Is(s: Store, id: nat, status: Status) {
    id < |s.rows| && s.rows[id].status == status
  }

  /** The row carries this error. */
  ghost predicate Carries(s: Store, id: nat, cause: Cause) {
    Is(s, id, Failed) && s.rows[id].error == Some(cause)
  }

  ghost predicate CarriesRefusal(s: Store, id: nat, r: Refusal) {
    Carries(s, id, Because(r))
  }

  /** A publication that could not be queued: somebody claimed it first, or its row says so. */
  ghost predicate Unqueued(s: Store, id: nat) {
    id in s.claims || CarriesRefusal(s, id, QueueFailed)
  }

  /** The errors of a publication that was claimed. */
  predicate OfClaim(r: Refusal) {
    r.AssetMissing? || r.AssetInvalid? || r.UnsupportedProvider? || r.FromProvider? || r.ProviderCrashed? || r.InvalidResponse?
  }

  /** A problem that a worker's claim ended with: an application error that the row carries,
      or an update that could not even be built, the row still being the worker's. */
  ghost predicate Ended(s: Store, me: nat, k: Process, p: Problem) {
    if p.App? then OfClaim(p.refusal) && CarriesRefusal(s, k.target, p.refusal)
    else Won(s.claims, k.target, me) && Is(s, k.target, Publishing)
  }

  /** What the caller was told matches the row. */
  ghost predicate Told(s: Store, me: nat, k: Process, o: Outcome) {
    match o
    case Returned(row) => k.kind.Publisher? ==> row.status.Published?
    case Raised(p) =>
      && (k.kind.Worker? ==> false)
      && (k.kind.Publisher? ==>
            if p.App? then p.refusal.NotFound? || p.refusal.NotPending? || p.refusal.NotClaimed?
                           || (OfClaim(p.refusal) && CarriesRefusal(s, k.target, p.refusal))
            else Won(s.claims, k.target, me) && Is(s, k.target, Publishing))
      && (k.kind.Enqueuer? && p == App(QueueFailed) ==> Unqueued(s, k.target))
    case Reported(p) =>
      if p.App? then OfClaim(p.refusal) && CarriesRefusal(s, k.target, p.refusal)
      else Carries(s, k.target, WorkerError)
    case Unpublished(cause, _) => k.kind.Coordinator? && cause == Because(QueueFailed) ==> Unqueued(s, k.target)
    case _ => true
  }

  ghost predicate ClaimsOk(s: Store, me: nat, k: Process) {
    match k.pc
    case Rechecking => k.target < |s.rows| && Rank(s.rows[k.target].status) >= 2
    case Loading(_) | Calling(_, _) | Completing(_, _) => Is(s, k.target, Publishing)
    case Failing(r) => Is(s, k.target, Publishing) && OfClaim(r)
    case FailingQueued(p) => Ended(s, me, k, p)
    case FailingPublishing(p) => Ended(s, me, k, p)
    case Confirming(p) => p.App? && Ended(s, me, k, p)
    case Dispatching(_, _) | Unqueueing => k.target in s.claims || Is(s, k.target, Queued)
    case Reviewing(r) => r.QueueFailed? ==> Unqueued(s, k.target)
    case Done(o) => Told(s, me, k, o)
    case _ => true
  }

  ghost predicate CalmOk(s: State) {
    StateOk(s) && forall i :: 0 <= i < |s.processes| ==> ClaimsOk(s.store, i, s.processes[i])
  }

  /** A PUBLISHING row is moved only by its claimant, a QUEUED row only by its enqueuer or by
      being claimed. */
  ghost predicate Guarded(s: Store, t: Store, me: nat) {
    forall i :: 0 <= i < |s.rows| && i < |t.rows| && t.rows[i] != s.rows[i] ==>
      && (s.rows[i].status.Publishing? ==> Won(s.claims, i, me))
      && (s.rows[i].status.Queued? ==> i in t.claims || Won(s.queuers, i, me))
  }

  // ----- the others -----

  lemma StaysPublishing(s: Store, t: Store, me: nat, other: nat, id: nat)
    requires Advances(s, t, me) && Guarded(s, t, me) && me != other
    requires Is(s, id, Publishing) && Won(s.claims, id, other)
    ensures Is(t, id, Publishing) && Won(t.claims, id, other)
  {
    assert t.rows[id] == s.rows[id];
  }

  lemma StaysQueued(s: Store, t: Store, me: nat, other: nat, id: nat)
    requires Advances(s, t, me) && Guarded(s, t, me) && me != other && Won(s.queuers, id, other)
    requires id in s.claims || Is(s, id, Queued)
    ensures id in t.claims || Is(t, id, Queued)
  {
    if id !in t.claims {
      assert t.rows[id] == s.rows[id];
    }
  }

  lemma UnqueuedStays(s: Store, t: Store, me: nat, id: nat)
    requires Advances(s, t, me) && Unqueued(s, id)
    ensures Unqueued(t, id)
  {
    if id !in s.claims {
      StaysCarried(s, t, me, id, Because(QueueFailed));
    }
  }

  lemma StaysCarried(s: Store, t: Store, me: nat, id: nat, cause: Cause)
    requires Advances(s, t, me) && Carries(s, id, cause)
    ensures Carries(t, id, cause)
  {
    assert RowAdvances(s.rows[id], t.rows[id]);
  }

  lemma EndedStays(s: Store, t: Store, me: nat, other: nat, k: Process, p: Problem)
    requires Advances(s, t, me) && Guarded(s, t, me) && me != other && Ended(s, other, k, p)
    ensures Ended(t, other, k, p)
  {
    if p.App? {
      StaysCarried(s, t, me, k.target, Because(p.refusal));
    } else {
      StaysPublishing(s, t, me, other, k.target);
    }
  }

  lemma ToldStays(s: Store, t: Store, me: nat, other: nat, k: Process, o: Outcome)
    requires Advances(s, t, me) && Guarded(s, t, me) && me != other && Told(s, other, k, o)
    ensures Told(t, other, k, o)
  {
    match o
    case Raised(p) =>
      if k.kind.Publisher? {
        if p.App? {
          if OfClaim(p.refusal) {
            StaysCarried(s, t, me, k.target, Because(p.refusal));
          }
        } else {
          StaysPublishing(s, t, me, other, k.target);
        }
      } else if k.kind.Enqueuer? && p == App(QueueFailed) {
        UnqueuedStays(s, t, me, k.target);
      }
    case Reported(p) =>
      if p.App? {
        StaysCarried(s, t, me, k.target, Because(p.refusal));
      } else {
        StaysCarried(s, t, me, k.target, WorkerError);
      }
    case Unpublished(cause, _) =>
      if k.kind.Coordinator? && cause == Because(QueueFailed) {
        UnqueuedStays(s, t, me, k.target);
      }
    case _ =>
  }

  lemma OthersCalm(s: Store, t: Store, me: nat, other: nat, k: Process)
    requires Advances(s, t, me) && Guarded(s, t, me) && me != other
    requires ProcessOk(s, other, k) && ClaimsOk(s, other, k)
    ensures ClaimsOk(t, other, k)
  {
    match k.pc
    case Rechecking => assert RowAdvances(s.rows[k.target], t.rows[k.target]);
    case Loading(_) => StaysPublishing(s, t, me, other, k.target);
    case Calling(_, _) => StaysPublishing(s, t, me, other, k.target);
    case Completing(_, _) => StaysPublishing(s, t, me, other, k.target);
    case Failing(_) => StaysPublishing(s, t, me, other, k.target);
    case FailingQueued(p) => EndedStays(s, t, me, other, k, p);
    case FailingPublishing(p) => EndedStays(s, t, me, other, k, p);
    case Confirming(p) => EndedStays(s, t, me, other, k, p);
    case Dispatching(_, _) => StaysQueued(s, t, me, other, k.target);
    case Unqueueing => StaysQueued(s, t, me, other, k.target);
    case Reviewing(r) =>
      if r.QueueFailed? {
        UnqueuedStays(s, t, me, k.target);
      }
    case Done(o) => ToldStays(s, t, me, other, k, o);
    case _ =>
  }

  // ----- the process that steps -----

  /** Which of its calls may move a PUBLISHING or a QUEUED row. */
  ghost predicate Entitled(s: Store, me: nat, call: Call) {
    call.Transition? && Hits(s.rows, call.id, call.from) ==>
      && (call.from.Publishing? ==> Won(s.claims, call.id, me))
      && (call.from.Queued? ==> call.to.Publishing? || Won(s.queuers, call.id, me))
  }

  lemma CallEntitled(s: Store, me: nat, k: Process, c: Choice)
    requires ProcessOk(s, me, k) && ClaimsOk(s, me, k)
    ensures Entitled(s, me, CallOf(k, c))
  {
  }

  lemma EntitledGuards(s: Store, me: nat, call: Call, c: Choice)
    requires Entitled(s, me, call)
    ensures Guarded(s, Effect(s, me, call, c), me)
  {
  }

  /** A worker's publication has left PENDING. */
  lemma WorkersRow(s: Store, id: nat)
    requires BrokerOk(s) && Sent(s, id)
    ensures id < |s.rows| && !s.rows[id].status.Pending?
  {
    var i :| 0 <= i < |s.dispatched| && s.dispatched[i].publication == id;
    assert MessageOk(s, s.dispatched[i]);
  }

  lemma ReadCalm(s: Store, me: nat, k: Process)
    requires Sensible(k) && k.pc.Reading? && (k.kind.Worker? ==> k.target < |s.rows| && !s.rows[k.target].status.Pending?)
    ensures ClaimsOk(s, me, k.(pc := AfterRead(k, Find(s.rows, k.target))))
  {
  }

  lemma ClaimCalm(s: Store, t: Store, me: nat, k: Process, c: Choice)
    requires Sensible(k) && k.pc.Claiming? && t == Effect(s, me, CallOf(k, c), c)
    requires k.kind.Worker? ==> k.target < |s.rows| && !s.rows[k.target].status.Pending?
    ensures ClaimsOk(t, me, k.(pc := AfterClaim(k, Answered(s, CallOf(k, c)))))
  {
  }

  lemma FailWithCalm(s: Store, me: nat, k: Process, r: Refusal)
    requires Sensible(k) && (k.kind.Worker? || k.kind.Publisher?)
    requires Is(s, k.target, Publishing) && Won(s.claims, k.target, me) && OfClaim(r)
    ensures ClaimsOk(s, me, k.(pc := FailWith(k, r)))
  {
  }

  lemma CalledCalm(s: Store, me: nat, k: Process, a: Answer)
    requires Sensible(k) && k.pc.Calling? && Is(s, k.target, Publishing) && Won(s.claims, k.target, me)
    ensures ClaimsOk(s, me, k.(pc := AfterCall(k, a)))
  {
    match a
    case ApplicationFailure(code, message) => FailWithCalm(s, me, k, FromProvider(code, message));
    case ProviderFailure(code, message) => FailWithCalm(s, me, k, FromProvider(code, message));
    case OtherFailure => FailWithCalm(s, me, k, ProviderCrashed);
    case Response(id, url) => FailWithCalm(s, me, k, InvalidResponse);
  }

  lemma LoadedCalm(s: Store, me: nat, k: Process, c: Choice)
    requires Sensible(k) && k.pc.Loading? && Is(s, k.target, Publishing) && Won(s.claims, k.target, me)
    ensures ClaimsOk(s, me, k.(pc := AfterLoad(k, k.pc.row, c)))
  {
    var refusal := Vet(c.asset, c.supported);
    if refusal.Some? {
      FailWithCalm(s, me, k, refusal.value);
    }
  }

  /** The last write of a claim hits. */
  lemma ClosedCalm(s: Store, t: Store, me: nat, k: Process, c: Choice)
    requires Sensible(k) && (k.pc.Failing? || k.pc.Completing?) && ClaimsOk(s, me, k)
    requires t == Effect(s, me, CallOf(k, c), c)
    ensures ClaimsOk(t, me, AfterReply(k, Answered(s, CallOf(k, c)), c))
  {
  }

  lemma BoundaryCalm(s: Store, t: Store, me: nat, k: Process, c: Choice)
    requires Sensible(k) && (k.pc.FailingQueued? || k.pc.FailingPublishing? || k.pc.Confirming?) && ClaimsOk(s, me, k)
    requires t == Effect(s, me, CallOf(k, c), c)
    ensures ClaimsOk(t, me, AfterReply(k, Answered(s, CallOf(k, c)), c))
  {
  }

  lemma QueueCalm(s: Store, t: Store, me: nat, k: Process, c: Choice)
    requires ProcessOk(s, me, k) && ClaimsOk(s, me, k) && (k.pc.Queueing? || k.pc.Dispatching? || k.pc.Unqueueing?)
    requires t == Effect(s, me, CallOf(k, c), c)
    ensures ClaimsOk(t, me, AfterReply(k, Answered(s, CallOf(k, c)), c))
  {
  }

  lemma OtherwiseCalm(s: Store, me: nat, k: Process, found: Option<Row>, c: Choice)
    requires Sensible(k) && (k.pc.Checking? || k.pc.Listing? || k.pc.Vetting? || k.pc.Inserting? || k.pc.Recovering? || k.pc.Reviewing?)
    requires ClaimsOk(s, me, k)
    ensures ClaimsOk(s, me, AfterReply(k, found, c))
  {
  }

  lemma RecheckCalm(s: Store, me: nat, k: Process)
    requires Sensible(k) && k.pc.Rechecking? && ClaimsOk(s, me, k)
    ensures ClaimsOk(s, me, k.(pc := AfterRecheck(k, Find(s.rows, k.target))))
  {
  }

  /** The program counters of a publication's claim. */
  predicate Claimlike(k: Process) {
    k.pc.Reading? || k.pc.Claiming? || k.pc.Rechecking? || k.pc.Loading? || k.pc.Calling? || k.pc.Failing? || k.pc.Completing?
  }

  lemma ClaimlikeCalm(s: Store, me: nat, k: Process, c: Choice, t: Store, r: Process)
    requires BrokerOk(s) && ProcessOk(s, me, k) && ClaimsOk(s, me, k) && Claimlike(k)
    requires c.fault.Works? && Steps(s, me, k, c, t, r)
    ensures ClaimsOk(t, me, r)
  {
    assert Unfold(c);
    if k.kind.Worker? {
      WorkersRow(s, k.target);
    }
    match k.pc
    case Reading => ReadCalm(s, me, k);
    case Claiming => ClaimCalm(s, t, me, k, c);
    case Rechecking => RecheckCalm(s, me, k);
    case Loading(_) => LoadedCalm(s, me, k, c);
    case Calling(_, _) => CalledCalm(t, me, k, c.answer);
    case _ => ClosedCalm(s, t, me, k, c);
  }

  lemma OtherlikeCalm(s: Store, me: nat, k: Process, c: Choice, t: Store, r: Process)
    requires ProcessOk(s, me, k) && ClaimsOk(s, me, k) && !Claimlike(k)
    requires c.fault.Works? && Steps(s, me, k, c, t, r)
    ensures ClaimsOk(t, me, r)
  {
    assert Unfold(c);
    if k.pc.FailingQueued? || k.pc.FailingPublishing? || k.pc.Confirming? {
      BoundaryCalm(s, t, me, k, c);
    } else if k.pc.Queueing? || k.pc.Dispatching? || k.pc.Unqueueing? {
      QueueCalm(s, t, me, k, c);
    } else if !k.pc.Done? {
      OtherwiseCalm(t, me, k, Answered(s, CallOf(k, c)), c);
    }
  }

  lemma ActCalm(s: State, me: nat, c: Choice)
    requires CalmOk(s) && Possible(s, Act(me, c)) && c.fault.Works?
    ensures CalmOk(Apply(s, Act(me, c))) && Guarded(s.store, Apply(s, Act(me, c)).store, me)
  {
    var t := Apply(s, Act(me, c));
    ActOk(s, me, c);
    ActSteps(s, me, c);
    CalmStep(s.store, me, s.processes[me], c, t.store, t.processes[me]);
    forall i | 0 <= i < |t.processes|
      ensures ClaimsOk(t.store, i, t.processes[i])
    {
      if i != me {
        OthersCalm(s.store, t.store, me, i, s.processes[i]);
      }
    }
  }

  lemma CalmStep(s: Store, me: nat, k: Process, c: Choice, t: Store, r: Process)
    requires StoreOk(s) && ProcessOk(s, me, k) && ClaimsOk(s, me, k) && c.fault.Works? && Steps(s, me, k, c, t, r)
    ensures Guarded(s, t, me) && ClaimsOk(t, me, r)
  {
    GuardedStep(s, me, k, c, t, r);
    if Claimlike(k) {
      ClaimlikeCalm(s, me, k, c, t, r);
    } else {
      OtherlikeCalm(s, me, k, c, t, r);
    }
  }

  lemma GuardedStep(s: Store, me: nat, k: Process, c: Choice, t: Store, r: Process)
    requires ProcessOk(s, me, k) && ClaimsOk(s, me, k) && c.fault.Works? && Steps(s, me, k, c, t, r)
    ensures Guarded(s, t, me)
  {
    assert Unfold(c);
    CallEntitled(s, me, k, c);
    EntitledGuards(s, me, CallOf(k, c), c);
  }

  /** Arrivals, crashes and the broker move no row. */
  lemma QuietCalm(s: State, e: Event)
    requires CalmOk(s) && Possible(s, e) && !e.Act?
    ensures CalmOk(Apply(s, e)) && Guarded(s.store, Apply(s, e).store, |s.processes|)
  {
    var t := Apply(s, e);
    EventOk(s, e);
    QuietAdvances(s, e);
    QuietProcesses(s, e);
    forall i | 0 <= i < |s.processes|
      ensures ClaimsOk(t.store, i, t.processes[i])
    {
      OthersCalm(s.store, t.store, |s.processes|, i, s.processes[i]);
      SameCalm(t.store, i, s.processes[i], t.processes[i]);
    }
  }

  lemma QuietAdvances(s: State, e: Event)
    requires Possible(s, e) && !e.Act?
    ensures var t := Apply(s, e);
            && Advances(s.store, t.store, |s.processes|)
            && forall i :: 0 <= i < |s.store.rows| ==> t.store.rows[i] == s.store.rows[i]
  {
  }

  lemma QuietProcesses(s: State, e: Event)
    requires Possible(s, e) && !e.Act?
    ensures var t := Apply(s, e);
            && |s.processes| <= |t.processes|
            && (forall i :: 0 <= i < |s.processes| ==> t.processes[i] == s.processes[i].(alive := t.processes[i].alive))
            && (forall i :: |s.processes| <= i < |t.processes| ==> ClaimsOk(t.store, i, t.processes[i]))
  {
  }

  lemma SameCalm(s: Store, me: nat, k: Process, r: Process)
    requires ClaimsOk(s, me, k) && r == k.(alive := r.alive)
    ensures ClaimsOk(s, me, r)
  {
  }

  lemma {:induction false} RunCalm(s: State, events: seq<Event>, t: State)
    requires CalmOk(s) && Run(s, events, t) && forall i :: 0 <= i < |events| ==> Healthy(events[i])
    ensures CalmOk(t)
    decreases |events|
  {
    if events != [] {
      var e := events[0];
      assert Healthy(e);
      if e.Act? {
        ActCalm(s, e.who, e.choice);
      } else {
        QuietCalm(s, e);
      }
      RunCalm(Apply(s, e), events[1..], t);
    }
  }

  /** Reachable without a repository call raising. */
  ghost predicate CalmlyReachable(s: State) {
    exists events :: Run(INITIAL, events, s) && forall i :: 0 <= i < |events| ==> Healthy(events[i])
  }

  lemma CalmlyOk(s: State)
    requires CalmlyReachable(s)
    ensures CalmOk(s)
  {
    var events :| Run(INITIAL, events, s) && forall i :: 0 <= i < |events| ==> Healthy(events[i]);
    RunCalm(INITIAL, events, s);
  }

  // ----- the main results -----

  /** Working on a claimed publication. */
  predicate Working(k: Process) {
    k.pc.Loading? || k.pc.Calling? || k.pc.Failing? || k.pc.Completing?
  }

  /** A PUBLISHING row has exactly one claimant: nobody else works on it, whoever works on a
      publication finds its row PUBLISHING, and only the claimant moves the row on. */
  lemma OneClaimant(s: State, id: nat, e: Event)
    requires CalmlyReachable(s) && Is(s.store, id, Publishing) && Possible(s, e) && Healthy(e)
    ensures id in s.store.claims
    ensures forall i :: 0 <= i < |s.processes| && Working(s.processes[i]) ==>
              Is(s.store, s.processes[i].target, Publishing) && (s.processes[i].target == id ==> i == s.store.claims[id])
    ensures !Is(Apply(s, e).store, id, Publishing) ==> e.Act? && e.who == s.store.claims[id]
  {
    CalmlyOk(s);
    forall i | 0 <= i < |s.processes| && Working(s.processes[i])
      ensures Is(s.store, s.processes[i].target, Publishing) && Won(s.store.claims, s.processes[i].target, i)
    {
      WorkingOwns(s.store, i, s.processes[i]);
    }
    OnlyClaimantMoves(s, id, e);
  }

  lemma WorkingOwns(s: Store, me: nat, k: Process)
    requires ProcessOk(s, me, k) && ClaimsOk(s, me, k) && Working(k)
    ensures Is(s, k.target, Publishing) && Won(s.claims, k.target, me)
  {
  }

  lemma OnlyClaimantMoves(s: State, id: nat, e: Event)
    requires CalmOk(s) && Is(s.store, id, Publishing) && Possible(s, e) && Healthy(e)
    ensures !Is(Apply(s, e).store, id, Publishing) ==> e.Act? && Won(s.store.claims, id, e.who)
  {
    if e.Act? {
      ActOk(s, e.who, e.choice);
      ActCalm(s, e.who, e.choice);
    } else {
      QuietAdvances(s, e);
    }
  }

  /** The problem with which a process of the service has left its try block or its request. */
  function Problems(k: Process): Option<Problem> {
    match k.pc
    case FailingQueued(p) => Some(p)
    case FailingPublishing(p) => Some(p)
    case Confirming(p) => Some(p)
    case Done(Reported(p)) => Some(p)
    case Done(Raised(p)) => Some(p)
    case _ => None
  }

  /** A worker meets no missing or pending publication, never fails to claim without finding
      the row settled, and neither worker nor publisher loses a publication that it claimed:
      every application error of a worker is one of its own claim, and is what the row says. */
  lemma WorkerProblems(s: State, i: nat)
    requires CalmlyReachable(s) && i < |s.processes| && Problems(s.processes[i]).Some?
    ensures var k := s.processes[i];
            var p := Problems(k).value;
            && (k.kind.Publisher? || k.kind.Worker? ==> p != App(Vanished) && p != App(WorkerNotQueued) && p != App(WorkerNotClaimed))
            && (k.kind.Worker? && p.App? ==> OfClaim(p.refusal) && CarriesRefusal(s.store, k.target, p.refusal))
  {
    CalmlyOk(s);
    ProblemsOwn(s.store, i, s.processes[i]);
  }

  lemma ProblemsOwn(s: Store, me: nat, k: Process)
    requires ProcessOk(s, me, k) && ClaimsOk(s, me, k) && Problems(k).Some?
    ensures var p := Problems(k).value;
            && (k.kind.Publisher? || k.kind.Worker? ==> p != App(Vanished) && p != App(WorkerNotQueued) && p != App(WorkerNotClaimed))
            && (k.kind.Worker? && p.App? ==> OfClaim(p.refusal) && CarriesRefusal(s, k.target, p.refusal))
  {
  }

  /** The generic worker error is only ever written by a worker to the publication that it
      itself claimed, when it could not build the update; it replaces no other error. */
  lemma GenericErrorIsOwn(s: State, who: nat, c: Choice, id: nat)
    requires CalmlyReachable(s) && Possible(s, Act(who, c)) && c.fault.Works?
    requires s.processes[who].pc.FailingQueued? || s.processes[who].pc.FailingPublishing?
    requires id < |s.store.rows| && Apply(s, Act(who, c)).store.rows[id] != s.store.rows[id]
    ensures s.processes[who].pc == FailingPublishing(Other) && Won(s.store.claims, id, who)
    ensures Is(s.store, id, Publishing) && s.store.rows[id].error.None?
  {
    CalmlyOk(s);
    BoundaryMoves(s.store, who, s.processes[who], c, id);
    assert RowOk(s.store.rows[id]);
  }

  lemma BoundaryMoves(s: Store, me: nat, k: Process, c: Choice, id: nat)
    requires ProcessOk(s, me, k) && ClaimsOk(s, me, k) && (k.pc.FailingQueued? || k.pc.FailingPublishing?)
    requires id < |s.rows| && Effect(s, me, CallOf(k, c), c).rows[id] != s.rows[id]
    ensures k.pc == FailingPublishing(Other) && Won(s.claims, id, me) && Is(s, id, Publishing)
  {
  }

  /** Process k was told, by an exception or in its result, that its publication could not be
      queued. */
  predicate ToldUnqueued(k: Process) {
    || (k.kind.Enqueuer? && k.pc == Done(Raised(App(QueueFailed))))
    || (k.kind.Coordinator? && k.pc.Done? && k.pc.outcome.Unpublished? && k.pc.outcome.cause == Because(QueueFailed))
  }

  /** Exactly when PUBLISHING_QUEUE_ERROR leaves the row FAILED with that error: nobody claimed
      the publication before the failure was written. */
  lemma QueueErrorIff(s: State, i: nat)
    requires CalmlyReachable(s) && i < |s.processes| && ToldUnqueued(s.processes[i])
    ensures var id := s.processes[i].target; CarriesRefusal(s.store, id, QueueFailed) <==> id !in s.store.claims
  {
    CalmlyOk(s);
    var k := s.processes[i];
    assert ClaimsOk(s.store, i, k);
    assert Unqueued(s.store, k.target);
    if CarriesRefusal(s.store, k.target, QueueFailed) {
      assert Reachable(s);
      PublishingAnswers.RowsTellTheTruth(s, k.target);
    }
  }
}
