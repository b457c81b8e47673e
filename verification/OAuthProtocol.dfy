/** Authorizations, callbacks and disconnections of YouTube connections as processes over the
    same tables: the client side of the authorization code grant (section 4.1 of RFC 6749),
    with the state parameter of section 10.12. Every repository call is one atomic step. A
    repository exception ends a process where it stands, as a crash does: no handler catches
    one. Source: apps/api/publishing/connection_service.py. */
module OAuthProtocol {
  import opened Values
  import opened Sequences
  import opened Connections

  datatype Reason = InvalidState | ExpiredState | ReusedState | Misconfigured | Because(failure: Failure) | Missing

  /** The code exchange and the encryption of the token it grants. */
  datatype Exchange =
    | Granted(ciphertext: nat, scopes: seq<string>)
    | Denied(failure: Failure)
    | Broken

  /** Everything outside the tables that one step can depend on. */
  datatype Choice = Choice(now: int, digest: nat, configured: bool, exchange: Exchange)

  datatype Outcome =
    | Authorized(connection: nat, expiresAt: int)
    | Linked(connection: nat)
    | Unlinked(connection: nat)
    | Refused(reason: Reason)
    | Raised

  datatype Pc =
    | Opening(expiresAt: int)
    | Issuing(connection: nat, expiresAt: int)
    | Consuming(digest: nat, code: bool)
    | Exchanging(connection: nat)
    | Rejecting(connection: nat, failure: Failure)
    | Storing(connection: nat, ciphertext: nat, scopes: seq<string>)
    | Connecting(connection: nat, scopes: seq<string>)
    | Listing(connection: nat)
    | Erasing(connection: nat, todo: seq<nat>)
    | Closing(connection: nat, todo: seq<nat>)
    | Reading(connection: nat)
    | Deleting(connection: nat)
    | Ending(connection: nat)
    | Done(outcome: Outcome)

  datatype Process = Process(pc: Pc, alive: bool)

  /** openers, consumers, consumptions, exchanges, grants, stored and linked are histories: who
      opened a connection, whose callback consumed its state, the states consumed, the
      connections whose code was exchanged, with what result, that got a credential, and that
      became CONNECTED. */
  datatype Store = Store(
    tables: Tables,
    openers: map<nat, nat>,
    consumers: map<nat, nat>,
    consumptions: seq<nat>,
    exchanges: seq<nat>,
    grants: map<nat, Exchange>,
    stored: set<nat>,
    linked: set<nat>)

  const EMPTY := Store(Tables([], [], map[]), map[], map[], [], [], map[], {}, {})
  const SCOPE: seq<string> := ["upload"]

  function SetConnection(s: Store, id: nat, c: Connection): Store {
    if id < |s.tables.connections| then s.(tables := Update(s.tables, id, c)) else s
  }

  function ConnectionAt(s: Store, id: nat): Connection {
    if id < |s.tables.connections| then s.tables.connections[id] else Open([])
  }

  function Forget(s: Store, id: nat): Store {
    s.(tables := s.tables.(credentials := s.tables.credentials - {id}))
  }

  function ConsumeStore(s: Store, me: nat, digest: nat, now: int): Store {
    match ConsumeAnswer(s.tables.states, digest, now)
    case Consumed(id) =>
      s.(tables := s.tables.(states := ConsumeStates(s.tables.states, digest, now)),
         consumers := s.consumers[id := me], consumptions := s.consumptions + [digest])
    case _ => s
  }

  /** The effect of a process's next call. */
  function StoreAfter(s: Store, me: nat, k: Process, c: Choice): Store {
    match k.pc
    case Opening(_) =>
      s.(tables := s.tables.(connections := s.tables.connections + [Open(SCOPE)]),
         openers := s.openers[|s.tables.connections| := me])
    case Issuing(id, expiresAt) =>
      if FindState(s.tables.states, c.digest).Some? then s
      else s.(tables := s.tables.(states := s.tables.states + [StateRow(id, c.digest, expiresAt, None)]))
    case Consuming(digest, _) => ConsumeStore(s, me, digest, c.now)
    case Exchanging(id) => s.(exchanges := s.exchanges + [id], grants := s.grants[id := c.exchange])
    case Rejecting(id, f) => SetConnection(s, id, MarkedFailed(ConnectionAt(s, id), f))
    case Storing(id, ciphertext, _) =>
      if id in s.tables.credentials then s
      else s.(tables := s.tables.(credentials := s.tables.credentials[id := ciphertext]), stored := s.stored + {id})
    case Connecting(id, scopes) =>
      if id >= |s.tables.connections| then s
      else SetConnection(s, id, Connections.Linked(ConnectionAt(s, id), scopes, c.now)).(linked := s.linked + {id})
    case Erasing(_, todo) => if todo == [] then s else Forget(s, todo[0])
    case Closing(_, todo) => if todo == [] then s else SetConnection(s, todo[0], Connections.Unlinked(ConnectionAt(s, todo[0]), c.now))
    case Deleting(id) => Forget(s, id)
    case Ending(id) => SetConnection(s, id, Connections.Unlinked(ConnectionAt(s, id), c.now))
    case Listing(_) | Reading(_) | Done(_) => s
  }

  function AfterConsume(a: Consumption, code: bool, configured: bool): Pc {
    match a
    case Invalid => Done(Refused(InvalidState))
    case Expired => Done(Refused(ExpiredState))
    case Reused => Done(Refused(ReusedState))
    case Consumed(id) =>
      if !code then Rejecting(id, CodeMissing)
      else if !configured then Done(Refused(Misconfigured))
      else Exchanging(id)
  }

  /** The next connection to disconnect, or the end of the callback. */
  function Sweep(id: nat, todo: seq<nat>): Pc {
    if todo == [] then Done(Linked(id)) else Erasing(id, todo)
  }

  function PcAfter(s: Store, k: Process, c: Choice): Pc {
    match k.pc
    case Opening(expiresAt) => Issuing(|s.tables.connections|, expiresAt)
    case Issuing(id, expiresAt) =>
      if FindState(s.tables.states, c.digest).Some? then Done(Raised) else Done(Authorized(id, expiresAt))
    case Consuming(digest, code) => AfterConsume(ConsumeAnswer(s.tables.states, digest, c.now), code, c.configured)
    case Exchanging(id) =>
      (match c.exchange
       case Granted(ciphertext, scopes) => Storing(id, ciphertext, scopes)
       case Denied(f) => Rejecting(id, f)
       case Broken => Done(Raised))
    case Rejecting(_, f) => Done(Refused(Because(f)))
    case Storing(id, _, scopes) => if id in s.tables.credentials then Done(Raised) else Connecting(id, scopes)
    case Connecting(id, _) => if id < |s.tables.connections| then Listing(id) else Done(Refused(Missing))
    case Listing(id) => Sweep(id, Without(Active(s.tables.connections), id))
    case Erasing(id, todo) => Closing(id, todo)
    case Closing(id, todo) => Sweep(id, if todo == [] then [] else todo[1..])
    case Reading(id) =>
      if id >= |s.tables.connections| then Done(Refused(Missing))
      else if s.tables.connections[id].status.Disconnected? then Done(Unlinked(id))
      else Deleting(id)
    case Deleting(id) => Ending(id)
    case Ending(id) => if id < |s.tables.connections| then Done(Unlinked(id)) else Done(Refused(Missing))
    case Done(_) => k.pc
  }

  function Next(s: Store, k: Process, c: Choice): Process {
    k.(pc := PcAfter(s, k, c))
  }

  function NewAuthorizer(configured: bool, now: int, ttl: int): Process {
    Process(if configured then Opening(now + ttl) else Done(Refused(Misconfigured)), true)
  }

  /** An absent or empty state parameter is refused at once. */
  function NewCallback(state: Option<nat>, code: bool): Process {
    match state
    case None => Process(Done(Refused(InvalidState)), true)
    case Some(digest) => Process(Consuming(digest, code), true)
  }

  function NewDisconnecter(id: nat): Process {
    Process(Reading(id), true)
  }

  // ----- runs -----

  datatype State = State(store: Store, processes: seq<Process>)

  const INITIAL := State(EMPTY, [])

  datatype Event =
    | Act(who: nat, choice: Choice)
    | Authorize(configured: bool, now: int, ttl: int)
    | CallBack(state: Option<nat>, code: bool)
    | Disconnect(connection: nat)
    | Crash(who: nat)

  predicate Possible(s: State, e: Event) {
    match e
    case Act(who, _) => who < |s.processes| && s.processes[who].alive && !s.processes[who].pc.Done?
    case Crash(who) => who < |s.processes|
    case _ => true
  }

  function Apply(s: State, e: Event): State
    requires Possible(s, e)
  {
    match e
    case Act(who, c) =>
      State(StoreAfter(s.store, who, s.processes[who], c), s.processes[who := Next(s.store, s.processes[who], c)])
    case Authorize(configured, now, ttl) => s.(processes := s.processes + [NewAuthorizer(configured, now, ttl)])
    case CallBack(state, code) => s.(processes := s.processes + [NewCallback(state, code)])
    case Disconnect(id) => s.(processes := s.processes + [NewDisconnecter(id)])
    case Crash(who) => s.(processes := s.processes[who := s.processes[who].(alive := false)])
  }

  predicate CanRun(s: State, events: seq<Event>)
    decreases |events|
  {
    events == [] || (Possible(s, events[0]) && CanRun(Apply(s, events[0]), events[1..]))
  }

  function Reach(s: State, events: seq<Event>): State
    requires CanRun(s, events)
    decreases |events|
  {
    if events == [] then s else Reach(Apply(s, events[0]), events[1..])
  }

  /** events is a run from s to t. */
  predicate Run(s: State, events: seq<Event>, t: State) {
    CanRun(s, events) && Reach(s, events) == t
  }

  lemma {:induction false} RunThen(s: State, events: seq<Event>, t: State, more: seq<Event>, u: State)
    requires Run(s, events, t) && Run(t, more, u)
    ensures Run(s, events + more, u)
    decreases |events|
  {
    if events == [] {
      assert events + more == more;
    } else {
      RunThen(Apply(s, events[0]), events[1..], t, more, u);
      DropAppend(events, more, 1);
    }
  }

  lemma RunOne(s: State, events: seq<Event>, t: State, e: Event)
    requires Run(s, events, t) && Possible(t, e)
    ensures Run(s, events + [e], Apply(t, e))
  {
    assert [e][1..] == [];
    assert CanRun(Apply(t, e), [e][1..]);
    RunThen(s, events, t, [e], Apply(t, e));
  }
}
