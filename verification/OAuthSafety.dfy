/** What holds in every reachable state of the connection protocol, however its operations
    interleave and wherever they stop. */
module OAuthSafety {
  import opened Values
  import opened Sequences
  import opened Connections
  import opened OAuthProtocol

  predicate Won(winners: map<nat, nat>, id: nat, me: nat) {
    id in winners && winners[id] == me
  }

  ghost predicate Bounded(winners: map<nat, nat>, n: nat) {
    forall id :: id in winners ==> id < n
  }

  ghost predicate Known(states: seq<StateRow>, digest: nat) {
    exists i :: 0 <= i < |states| && states[i].digest == digest
  }

  /** Some state belongs to the connection. */
  ghost predicate Issued(states: seq<StateRow>, id: nat) {
    exists i :: 0 <= i < |states| && states[i].connection == id
  }

  /** A state is consumed when its connection has a consumer, and only before it expires. */
  ghost predicate RowOk(s: Store, r: StateRow) {
    && r.connection < |s.tables.connections|
    && (r.consumedAt.Some? <==> r.connection in s.consumers)
    && (r.consumedAt.Some? <==> r.digest in s.consumptions)
    && (r.consumedAt.Some? ==> r.consumedAt.value < r.expiresAt)
  }

  ghost predicate StatesOk(s: Store) {
    && (forall i :: 0 <= i < |s.tables.states| ==> RowOk(s, s.tables.states[i]))
    && (forall i, j :: 0 <= i < j < |s.tables.states| ==>
          s.tables.states[i].connection != s.tables.states[j].connection && s.tables.states[i].digest != s.tables.states[j].digest)
    && (forall d :: d in s.consumptions ==> Known(s.tables.states, d))
    && Distinct(s.consumptions)
  }

  /** Every success of a callback presupposes the one before it. */
  ghost predicate HistoryOk(s: Store) {
    && Bounded(s.openers, |s.tables.connections|) && Bounded(s.consumers, |s.tables.connections|)
    && Distinct(s.exchanges) && (forall i :: 0 <= i < |s.exchanges| ==> s.exchanges[i] in s.consumers)
    && (forall id :: id in s.stored ==> id in s.consumers)
    && (forall id :: id in s.tables.credentials ==> id in s.stored)
    && (forall id :: id in s.linked ==> id in s.stored)
    && (forall id :: IsConnected(s.tables, id) ==> id in s.linked)
  }

  ghost predicate StoreOk(s: Store) {
    StatesOk(s) && HistoryOk(s)
  }

  predicate Holding(s: Store, me: nat, id: nat) {
    Won(s.consumers, id, me)
  }

  ghost predicate ProcessOk(s: Store, me: nat, k: Process) {
    match k.pc
    case Issuing(id, _) => Won(s.openers, id, me) && !Issued(s.tables.states, id) && id !in s.consumers
    case Exchanging(id) => Holding(s, me, id) && id !in s.exchanges && id !in s.stored
    case Rejecting(id, _) => Holding(s, me, id) && id !in s.stored
    case Storing(id, _, _) => Holding(s, me, id) && id !in s.stored
    case Connecting(id, _) => Holding(s, me, id) && id in s.stored && id !in s.linked
    case Listing(id) => Holding(s, me, id) && id in s.linked
    case Erasing(id, todo) => Holding(s, me, id) && id in s.linked && todo != [] && id !in todo
    case Closing(id, todo) => Holding(s, me, id) && id in s.linked && todo != [] && id !in todo
    case Deleting(id) => id < |s.tables.connections|
    case Ending(id) => id < |s.tables.connections|
    case _ => true
  }

  // ----- what one process may do -----

  ghost predicate WinnersAdvance(w: map<nat, nat>, w2: map<nat, nat>, me: nat) {
    && (forall id :: id in w ==> Won(w2, id, w[id]))
    && (forall id :: id in w2 && id !in w ==> w2[id] == me)
  }

  ghost predicate Advances(s: Store, t: Store, me: nat) {
    && |s.tables.connections| <= |t.tables.connections|
    && WinnersAdvance(s.openers, t.openers, me) && WinnersAdvance(s.consumers, t.consumers, me)
    && (forall i :: 0 <= i < |t.tables.states| ==>
          Issued(s.tables.states, t.tables.states[i].connection) || Won(s.openers, t.tables.states[i].connection, me))
    && (forall id :: id in t.consumers && id !in s.consumers ==> Issued(s.tables.states, id))
    && (forall id :: id in t.exchanges ==> id in s.exchanges || Holding(s, me, id))
    && s.stored <= t.stored && (forall id :: id in t.stored ==> id in s.stored || Holding(s, me, id))
    && s.linked <= t.linked && (forall id :: id in t.linked ==> id in s.linked || Holding(s, me, id))
  }

  lemma OthersOk(s: Store, t: Store, me: nat, other: nat, k: Process)
    requires ProcessOk(s, other, k) && Advances(s, t, me) && me != other
    ensures ProcessOk(t, other, k)
  {
    if k.pc.Issuing? {
      var id := k.pc.connection;
      forall i | 0 <= i < |t.tables.states|
        ensures t.tables.states[i].connection != id
      {
        assert Issued(s.tables.states, t.tables.states[i].connection) || Won(s.openers, t.tables.states[i].connection, me);
      }
    }
  }

  // ----- each effect -----

  lemma SameOk(s: Store, me: nat)
    requires StoreOk(s)
    ensures Advances(s, s, me)
  {
  }

  /** A change of one connection row that does not connect it. */
  lemma RowChangeOk(s: Store, me: nat, id: nat, c: Connection)
    requires StoreOk(s) && !c.status.Connected?
    ensures StoreOk(SetConnection(s, id, c)) && Advances(s, SetConnection(s, id, c), me)
  {
    var t := SetConnection(s, id, c);
    assert forall i :: 0 <= i < |t.tables.states| ==> RowOk(s, t.tables.states[i]);
  }

  lemma ForgetOk(s: Store, me: nat, id: nat)
    requires StoreOk(s)
    ensures StoreOk(Forget(s, id)) && Advances(s, Forget(s, id), me)
  {
    var t := Forget(s, id);
    assert forall i :: 0 <= i < |t.tables.states| ==> RowOk(s, t.tables.states[i]);
  }

  lemma OpenOk(s: Store, me: nat, c: Connection)
    requires StoreOk(s) && c.status.Pending?
    ensures var t := s.(tables := s.tables.(connections := s.tables.connections + [c]),
                        openers := s.openers[|s.tables.connections| := me]);
            StoreOk(t) && Advances(s, t, me) && ProcessOk(t, me, Process(Issuing(|s.tables.connections|, 0), true))
  {
    var id := |s.tables.connections|;
    var t := s.(tables := s.tables.(connections := s.tables.connections + [c]), openers := s.openers[id := me]);
    forall i | 0 <= i < |t.tables.states|
      ensures RowOk(t, t.tables.states[i]) && t.tables.states[i].connection != id
    {
      assert RowOk(s, t.tables.states[i]);
    }
  }

  lemma IssueOk(s: Store, me: nat, row: StateRow)
    requires StoreOk(s) && Won(s.openers, row.connection, me) && !Issued(s.tables.states, row.connection)
    requires row.connection !in s.consumers && row.consumedAt.None? && FindState(s.tables.states, row.digest).None?
    ensures var t := s.(tables := s.tables.(states := s.tables.states + [row])); StoreOk(t) && Advances(s, t, me)
  {
    var t := s.(tables := s.tables.(states := s.tables.states + [row]));
    assert !Known(s.tables.states, row.digest);
    forall i | 0 <= i < |t.tables.states|
      ensures RowOk(t, t.tables.states[i])
    {
      if i < |s.tables.states| {
        assert RowOk(s, s.tables.states[i]);
      }
    }
    forall d | d in t.consumptions
      ensures Known(t.tables.states, d)
    {
      var i :| 0 <= i < |s.tables.states| && s.tables.states[i].digest == d;
      assert t.tables.states[i] == s.tables.states[i];
    }
  }

  lemma ConsumeOk(s: Store, me: nat, digest: nat, now: int)
    requires StoreOk(s)
    ensures var t := ConsumeStore(s, me, digest, now);
            && StoreOk(t) && Advances(s, t, me)
            && (ConsumeAnswer(s.tables.states, digest, now).Consumed? ==>
                  var id := ConsumeAnswer(s.tables.states, digest, now).connection;
                  Holding(t, me, id) && id !in t.exchanges && id !in t.stored)
  {
    var t := ConsumeStore(s, me, digest, now);
    if ConsumeAnswer(s.tables.states, digest, now).Consumed? {
      var i := FindState(s.tables.states, digest).value;
      var row := s.tables.states[i];
      assert RowOk(s, row);
      assert row.connection !in s.consumers && digest !in s.consumptions;
      ConsumedRows(s, t, i, now, me);
      forall d | d in t.consumptions
        ensures Known(t.tables.states, d)
      {
        if d == digest {
          assert t.tables.states[i].digest == digest;
        } else {
          var j :| 0 <= j < |s.tables.states| && s.tables.states[j].digest == d;
          assert t.tables.states[j].digest == d;
        }
      }
    } else {
      SameOk(s, me);
    }
  }

  lemma ConsumedRows(s: Store, t: Store, i: nat, now: int, me: nat)
    requires StatesOk(s) && i < |s.tables.states|
    requires var row := s.tables.states[i];
             && row.consumedAt.None? && now < row.expiresAt
             && t == s.(tables := s.tables.(states := s.tables.states[i := row.(consumedAt := Some(now))]),
                        consumers := s.consumers[row.connection := me], consumptions := s.consumptions + [row.digest])
    ensures forall j :: 0 <= j < |t.tables.states| ==>
              RowOk(t, t.tables.states[j]) && t.tables.states[j].connection == s.tables.states[j].connection
              && t.tables.states[j].digest == s.tables.states[j].digest && Issued(s.tables.states, t.tables.states[j].connection)
  {
    forall j | 0 <= j < |t.tables.states|
      ensures RowOk(t, t.tables.states[j]) && t.tables.states[j].connection == s.tables.states[j].connection
      ensures t.tables.states[j].digest == s.tables.states[j].digest && Issued(s.tables.states, t.tables.states[j].connection)
    {
      assert RowOk(s, s.tables.states[j]);
      if j < i {
        assert s.tables.states[j].connection != s.tables.states[i].connection && s.tables.states[j].digest != s.tables.states[i].digest;
      } else if i < j {
        assert s.tables.states[i].connection != s.tables.states[j].connection && s.tables.states[i].digest != s.tables.states[j].digest;
      }
    }
  }

  lemma ExchangeOk(s: Store, me: nat, id: nat, x: Exchange)
    requires StoreOk(s) && Holding(s, me, id) && id !in s.exchanges
    ensures var t := s.(exchanges := s.exchanges + [id], grants := s.grants[id := x]); StoreOk(t) && Advances(s, t, me)
  {
    var t := s.(exchanges := s.exchanges + [id], grants := s.grants[id := x]);
    assert forall i :: 0 <= i < |t.tables.states| ==> RowOk(s, t.tables.states[i]);
  }

  lemma StoreCredentialOk(s: Store, me: nat, id: nat, ciphertext: nat)
    requires StoreOk(s) && Holding(s, me, id)
    ensures var t := s.(tables := s.tables.(credentials := s.tables.credentials[id := ciphertext]), stored := s.stored + {id});
            StoreOk(t) && Advances(s, t, me)
  {
    var t := s.(tables := s.tables.(credentials := s.tables.credentials[id := ciphertext]), stored := s.stored + {id});
    assert forall i :: 0 <= i < |t.tables.states| ==> RowOk(s, t.tables.states[i]);
  }

  lemma ConnectOk(s: Store, me: nat, id: nat, c: Connection)
    requires StoreOk(s) && Holding(s, me, id) && id in s.stored
    ensures var t := SetConnection(s, id, c).(linked := s.linked + {id}); StoreOk(t) && Advances(s, t, me)
  {
    var t := SetConnection(s, id, c).(linked := s.linked + {id});
    assert forall i :: 0 <= i < |t.tables.states| ==> RowOk(s, t.tables.states[i]);
  }

  // ----- the step of one process -----

  /** Always true: it only marks the choices at which Steps is to be instantiated, so that a
      step is looked into where a proof asserts Unfold and is otherwise only a name. */
  ghost predicate Unfold(c: Choice) {
    true
  }

  /** The next call of process k leaves the store as t and the process as r. */
  ghost predicate Steps(s: Store, me: nat, k: Process, c: Choice, t: Store, r: Process) {
    forall d: Choice {:trigger Unfold(d)} :: Unfold(d) && d == c ==> t == StoreAfter(s, me, k, d) && r == Next(s, k, d)
  }

  lemma ActSteps(s: State, me: nat, c: Choice)
    requires Possible(s, Act(me, c))
    ensures Steps(s.store, me, s.processes[me], c, Apply(s, Act(me, c)).store, Apply(s, Act(me, c)).processes[me])
  {
  }

  lemma EffectOk(s: Store, me: nat, k: Process, c: Choice, t: Store, r: Process)
    requires StoreOk(s) && ProcessOk(s, me, k) && Steps(s, me, k, c, t, r)
    ensures StoreOk(t) && Advances(s, t, me)
  {
    assert Unfold(c);
    SameOk(s, me);
    match k.pc
    case Opening(_) => OpenOk(s, me, Open(SCOPE));
    case Issuing(id, expiresAt) =>
      if FindState(s.tables.states, c.digest).None? {
        IssueOk(s, me, StateRow(id, c.digest, expiresAt, None));
      }
    case Consuming(digest, _) => ConsumeOk(s, me, digest, c.now);
    case Exchanging(id) => ExchangeOk(s, me, id, c.exchange);
    case Rejecting(id, f) => RowChangeOk(s, me, id, MarkedFailed(ConnectionAt(s, id), f));
    case Storing(id, ciphertext, _) => StoreCredentialOk(s, me, id, ciphertext);
    case Connecting(id, scopes) => ConnectOk(s, me, id, Connections.Linked(ConnectionAt(s, id), scopes, c.now));
    case Erasing(_, todo) => ForgetOk(s, me, todo[0]);
    case Closing(_, todo) => RowChangeOk(s, me, todo[0], Connections.Unlinked(ConnectionAt(s, todo[0]), c.now));
    case Deleting(id) => ForgetOk(s, me, id);
    case Ending(id) => RowChangeOk(s, me, id, Connections.Unlinked(ConnectionAt(s, id), c.now));
    case _ =>
  }

  lemma OpenedOk(s: Store, me: nat, k: Process, c: Choice, t: Store, r: Process)
    requires StoreOk(s) && k.pc.Opening? && Steps(s, me, k, c, t, r)
    ensures ProcessOk(t, me, r)
  {
    assert Unfold(c);
    OpenOk(s, me, Open(SCOPE));
  }

  lemma ConsumedOk(s: Store, me: nat, k: Process, c: Choice, t: Store, r: Process)
    requires StoreOk(s) && k.pc.Consuming? && Steps(s, me, k, c, t, r)
    ensures ProcessOk(t, me, r)
  {
    assert Unfold(c);
    ConsumeOk(s, me, k.pc.digest, c.now);
  }

  /** From the code exchange to CONNECTED. */
  lemma GrantOk(s: Store, me: nat, k: Process, c: Choice, t: Store, r: Process)
    requires StoreOk(s) && ProcessOk(s, me, k) && Steps(s, me, k, c, t, r)
    requires k.pc.Exchanging? || k.pc.Rejecting? || k.pc.Storing? || k.pc.Connecting?
    ensures ProcessOk(t, me, r)
  {
    assert Unfold(c);
  }

  /** Disconnecting the others. */
  lemma SweepOk(s: Store, me: nat, k: Process, c: Choice, t: Store, r: Process)
    requires ProcessOk(s, me, k) && Steps(s, me, k, c, t, r) && (k.pc.Listing? || k.pc.Erasing? || k.pc.Closing?)
    ensures ProcessOk(t, me, r)
  {
    assert Unfold(c);
  }

  lemma OtherwiseOk(s: Store, me: nat, k: Process, c: Choice, t: Store, r: Process)
    requires ProcessOk(s, me, k) && Steps(s, me, k, c, t, r)
    requires k.pc.Issuing? || k.pc.Reading? || k.pc.Deleting? || k.pc.Ending?
    ensures ProcessOk(t, me, r)
  {
    assert Unfold(c);
  }

  lemma OwnOk(s: Store, me: nat, k: Process, c: Choice, t: Store, r: Process)
    requires StoreOk(s) && ProcessOk(s, me, k) && !k.pc.Done? && Steps(s, me, k, c, t, r)
    ensures ProcessOk(t, me, r)
  {
    match k.pc
    case Opening(_) => OpenedOk(s, me, k, c, t, r);
    case Consuming(_, _) => ConsumedOk(s, me, k, c, t, r);
    case Exchanging(_) => GrantOk(s, me, k, c, t, r);
    case Rejecting(_, _) => GrantOk(s, me, k, c, t, r);
    case Storing(_, _, _) => GrantOk(s, me, k, c, t, r);
    case Connecting(_, _) => GrantOk(s, me, k, c, t, r);
    case Listing(_) => SweepOk(s, me, k, c, t, r);
    case Erasing(_, _) => SweepOk(s, me, k, c, t, r);
    case Closing(_, _) => SweepOk(s, me, k, c, t, r);
    case _ => OtherwiseOk(s, me, k, c, t, r);
  }

  // ----- two connections at once -----

  /** This program counter will still disconnect connection d on behalf of connection id. */
  predicate Pursues(pc: Pc, id: nat, d: nat) {
    match pc
    case Listing(x) => x == id
    case Erasing(x, todo) => x == id && d in todo
    case Closing(x, todo) => x == id && d in todo
    case _ => false
  }

  /** The callback of connection id has not finished, and will disconnect d. */
  ghost predicate Covers(s: Store, ps: seq<Process>, id: nat, d: nat) {
    id in s.consumers && s.consumers[id] < |ps| && Pursues(ps[s.consumers[id]].pc, id, d)
  }

  ghost predicate PairsOk(s: Store, ps: seq<Process>) {
    forall id, d :: id != d && IsConnected(s.tables, id) && IsConnected(s.tables, d) ==> Covers(s, ps, id, d) || Covers(s, ps, d, id)
  }

  /** A step connects at most the connection whose callback then has yet to list the others. */
  lemma NewlyConnected(s: Store, me: nat, k: Process, c: Choice, t: Store, r: Process, id: nat)
    requires ProcessOk(s, me, k) && Steps(s, me, k, c, t, r) && IsConnected(t.tables, id) && !IsConnected(s.tables, id)
    ensures r.pc == Listing(id) && Won(t.consumers, id, me)
  {
    assert Unfold(c);
  }

  /** A process that pursues d goes on doing so until d is not CONNECTED. */
  lemma KeepsPursuing(s: Store, me: nat, k: Process, c: Choice, t: Store, r: Process, id: nat, d: nat)
    requires Steps(s, me, k, c, t, r) && Pursues(k.pc, id, d) && id != d
    requires IsConnected(s.tables, d) && IsConnected(t.tables, d)
    ensures Pursues(r.pc, id, d)
  {
    assert Unfold(c);
    if k.pc.Listing? {
      ActiveMembers(s.tables.connections, |s.tables.connections|, d);
    }
  }

  lemma PairsStep(s: State, me: nat, c: Choice, t: Store, r: Process)
    requires StoreOk(s.store) && PairsOk(s.store, s.processes) && me < |s.processes| && ProcessOk(s.store, me, s.processes[me])
    requires Steps(s.store, me, s.processes[me], c, t, r) && Advances(s.store, t, me)
    ensures PairsOk(t, s.processes[me := r])
  {
    var ps := s.processes[me := r];
    forall id, d | id != d && IsConnected(t.tables, id) && IsConnected(t.tables, d)
      ensures Covers(t, ps, id, d) || Covers(t, ps, d, id)
    {
      if !IsConnected(s.store.tables, id) {
        NewlyConnected(s.store, me, s.processes[me], c, t, r, id);
      } else if !IsConnected(s.store.tables, d) {
        NewlyConnected(s.store, me, s.processes[me], c, t, r, d);
      } else if Covers(s.store, s.processes, id, d) {
        CoverStep(s, me, c, t, r, id, d);
      } else {
        CoverStep(s, me, c, t, r, d, id);
      }
    }
  }

  lemma CoverStep(s: State, me: nat, c: Choice, t: Store, r: Process, id: nat, d: nat)
    requires me < |s.processes| && Steps(s.store, me, s.processes[me], c, t, r) && Advances(s.store, t, me)
    requires id != d && Covers(s.store, s.processes, id, d) && IsConnected(s.store.tables, d) && IsConnected(t.tables, d)
    ensures Covers(t, s.processes[me := r], id, d)
  {
    if s.store.consumers[id] == me {
      KeepsPursuing(s.store, me, s.processes[me], c, t, r, id, d);
    }
  }

  // ----- runs -----

  ghost predicate StateOk(s: State) {
    && StoreOk(s.store) && PairsOk(s.store, s.processes)
    && (forall i :: 0 <= i < |s.processes| ==> ProcessOk(s.store, i, s.processes[i]))
    && (forall id :: id in s.store.consumers ==> s.store.consumers[id] < |s.processes|)
    && (forall id :: id in s.store.openers ==> s.store.openers[id] < |s.processes|)
  }

  lemma StepOk(s: State, me: nat, c: Choice, t: Store, r: Process)
    requires StateOk(s) && me < |s.processes| && !s.processes[me].pc.Done? && Steps(s.store, me, s.processes[me], c, t, r)
    ensures StateOk(State(t, s.processes[me := r])) && Advances(s.store, t, me)
  {
    EffectOk(s.store, me, s.processes[me], c, t, r);
    OwnOk(s.store, me, s.processes[me], c, t, r);
    PairsStep(s, me, c, t, r);
    forall i | 0 <= i < |s.processes| && i != me
      ensures ProcessOk(t, i, s.processes[i])
    {
      OthersOk(s.store, t, me, i, s.processes[i]);
    }
  }

  lemma ActOk(s: State, me: nat, c: Choice)
    requires StateOk(s) && Possible(s, Act(me, c))
    ensures StateOk(Apply(s, Act(me, c))) && Advances(s.store, Apply(s, Act(me, c)).store, me)
  {
    var t := Apply(s, Act(me, c));
    ActSteps(s, me, c);
    StepOk(s, me, c, t.store, t.processes[me]);
    assert t == State(t.store, s.processes[me := t.processes[me]]);
  }

  lemma ArrivalOk(s: State, k: Process)
    requires StateOk(s) && (k.pc.Opening? || k.pc.Consuming? || k.pc.Reading? || k.pc.Done?)
    ensures StateOk(s.(processes := s.processes + [k]))
  {
    var ps := s.processes + [k];
    forall id, d | id != d && IsConnected(s.store.tables, id) && IsConnected(s.store.tables, d)
      ensures Covers(s.store, ps, id, d) || Covers(s.store, ps, d, id)
    {
      assert Covers(s.store, s.processes, id, d) || Covers(s.store, s.processes, d, id);
    }
  }

  lemma CrashOk(s: State, who: nat)
    requires StateOk(s) && Possible(s, Crash(who))
    ensures StateOk(Apply(s, Crash(who)))
  {
    var t := Apply(s, Crash(who));
    forall i | 0 <= i < |t.processes|
      ensures ProcessOk(t.store, i, t.processes[i])
    {
      assert ProcessOk(s.store, i, s.processes[i]);
    }
    forall id, d | id != d && IsConnected(s.store.tables, id) && IsConnected(s.store.tables, d)
      ensures Covers(s.store, t.processes, id, d) || Covers(s.store, t.processes, d, id)
    {
      assert Covers(s.store, s.processes, id, d) || Covers(s.store, s.processes, d, id);
    }
  }

  lemma EventOk(s: State, e: Event)
    requires StateOk(s) && Possible(s, e)
    ensures StateOk(Apply(s, e))
  {
    match e
    case Act(who, c) => ActOk(s, who, c);
    case Authorize(configured, now, ttl) => ArrivalOk(s, NewAuthorizer(configured, now, ttl));
    case CallBack(state, code) => ArrivalOk(s, NewCallback(state, code));
    case Disconnect(id) => ArrivalOk(s, NewDisconnecter(id));
    case Crash(who) => CrashOk(s, who);
  }

  lemma {:induction false} RunOk(s: State, events: seq<Event>, t: State)
    requires StateOk(s) && Run(s, events, t)
    ensures StateOk(t)
    decreases |events|
  {
    if events != [] {
      EventOk(s, events[0]);
      RunOk(Apply(s, events[0]), events[1..], t);
    }
  }

  ghost predicate Reachable(s: State) {
    exists events :: Run(INITIAL, events, s)
  }

  lemma InitialOk()
    ensures StateOk(INITIAL)
  {
  }

  lemma ReachableOk(s: State)
    requires Reachable(s)
    ensures StateOk(s)
  {
    var events :| Run(INITIAL, events, s);
    InitialOk();
    RunOk(INITIAL, events, s);
  }

  // ----- the main results -----

  /** Any two CONNECTED connections are covered by a callback of one of them that has not
      finished and has yet to list the active connections or still has the other to disconnect. */
  lemma ConnectedPairsCovered(s: State, id: nat, d: nat)
    requires Reachable(s) && id != d && IsConnected(s.store.tables, id) && IsConnected(s.store.tables, d)
    ensures exists i :: 0 <= i < |s.processes| && (Pursues(s.processes[i].pc, id, d) || Pursues(s.processes[i].pc, d, id))
  {
    ReachableOk(s);
    if Covers(s.store, s.processes, id, d) {
      assert Pursues(s.processes[s.store.consumers[id]].pc, id, d);
    } else {
      assert Pursues(s.processes[s.store.consumers[d]].pc, d, id);
    }
  }

  /** Every operation has returned. */
  ghost predicate Quiet(s: State) {
    forall i :: 0 <= i < |s.processes| ==> s.processes[i].pc.Done?
  }

  /** With no operation in flight at most one connection is CONNECTED. */
  lemma AtMostOneConnected(s: State, id: nat, d: nat)
    requires Reachable(s) && Quiet(s) && IsConnected(s.store.tables, id) && IsConnected(s.store.tables, d)
    ensures id == d
  {
    ReachableOk(s);
    OneWhenQuiet(s, id, d);
  }

  lemma OneWhenQuiet(s: State, id: nat, d: nat)
    requires PairsOk(s.store, s.processes) && Quiet(s)
    requires IsConnected(s.store.tables, id) && IsConnected(s.store.tables, d)
    ensures id == d
  {
    assert !Covers(s.store, s.processes, id, d) && !Covers(s.store, s.processes, d, id);
  }

  /** A state is consumed at most once and before it expires, a connection has at most one
      state, and so at most one code exchange. */
  lemma StatesAreSingleUse(s: State, digest: nat, id: nat, i: nat, j: nat)
    requires Reachable(s) && i < |s.store.tables.states| && j < |s.store.tables.states|
    ensures Count(s.store.consumptions, digest) <= 1 && Count(s.store.exchanges, id) <= 1
    ensures var r := s.store.tables.states[i];
            (r.consumedAt.Some? <==> r.digest in s.store.consumptions) && (r.consumedAt.Some? ==> r.consumedAt.value < r.expiresAt)
    ensures s.store.tables.states[i].connection == s.store.tables.states[j].connection ==> i == j
  {
    ReachableOk(s);
    DistinctCount(s.store.consumptions, digest);
    DistinctCount(s.store.exchanges, id);
    assert RowOk(s.store, s.store.tables.states[i]);
  }

  /** The unique column never rejects a credential. */
  lemma CredentialNeverConflicts(s: State, who: nat)
    requires Reachable(s) && who < |s.processes| && s.processes[who].pc.Storing?
    ensures s.processes[who].pc.connection !in s.store.tables.credentials
  {
    ReachableOk(s);
    assert ProcessOk(s.store, who, s.processes[who]);
  }
}
