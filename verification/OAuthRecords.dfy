/** What a connection's columns and credential say about its code exchange. */
module OAuthRecords {
  import opened Values
  import opened Connections
  import opened OAuthProtocol
  import opened OAuthSafety

  /** The columns that go with each status. */
  predicate ColumnsOk(c: Connection) {
    && (c.status.Pending? ==> c.error.None? && c.connectedAt.None? && c.disconnectedAt.None?)
    && (c.status.Connected? ==> c.error.None? && c.connectedAt.Some? && c.disconnectedAt.None?)
    && (c.status.Failed? ==> c.error.Some?)
    && (c.status.Disconnected? ==> c.disconnectedAt.Some?)
  }

  /** The failure was the exchange's, or there was no code to exchange. */
  predicate Explained(s: Store, id: nat, f: Failure) {
    if id in s.grants then s.grants[id] == Denied(f) else f.CodeMissing?
  }

  predicate ConnectionSays(s: Store, id: nat, c: Connection) {
    && ColumnsOk(c)
    && (c.error.Some? ==> id in s.consumers && Explained(s, id, c.error.value))
    && (c.status.Connected? ==> id in s.grants && s.grants[id].Granted? && c.scopes == s.grants[id].scopes)
  }

  ghost predicate RecordsOk(s: Store) {
    && (forall i :: 0 <= i < |s.tables.connections| ==> ConnectionSays(s, i, s.tables.connections[i]))
    && (forall id :: id in s.tables.credentials ==>
          id in s.grants && s.grants[id].Granted? && s.tables.credentials[id] == s.grants[id].ciphertext)
    && (forall id :: id in s.grants <==> id in s.exchanges)
  }

  predicate ProcessSays(s: Store, k: Process) {
    match k.pc
    case Exchanging(id) => id < |s.tables.connections| && s.tables.connections[id].error.None?
    case Rejecting(id, f) => Explained(s, id, f)
    case Storing(id, ciphertext, scopes) => id in s.grants && s.grants[id] == Granted(ciphertext, scopes)
    case Connecting(id, scopes) => id in s.grants && s.grants[id].Granted? && s.grants[id].scopes == scopes
    case _ => true
  }

  /** Only the consumer of its state adds a connection's exchange or its error. */
  ghost predicate RecordsAdvance(s: Store, t: Store, me: nat) {
    && |s.tables.connections| <= |t.tables.connections|
    && (forall id :: id in s.grants ==> id in t.grants && t.grants[id] == s.grants[id])
    && (forall id :: id in t.grants && id !in s.grants ==> Holding(s, me, id))
    && (forall i :: 0 <= i < |s.tables.connections| && s.tables.connections[i].error.None? && t.tables.connections[i].error.Some? ==>
          Holding(s, me, i))
  }

  lemma OthersSay(s: Store, t: Store, me: nat, other: nat, k: Process)
    requires ProcessOk(s, other, k) && ProcessSays(s, k) && RecordsAdvance(s, t, me) && me != other
    ensures ProcessSays(t, k)
  {
  }

  lemma SameSays(s: Store, me: nat)
    ensures RecordsAdvance(s, s, me)
  {
  }

  /** One connection row changes, and goes on telling the truth. */
  lemma RowSays(s: Store, me: nat, id: nat, c: Connection)
    requires RecordsOk(s) && (id < |s.tables.connections| ==> ConnectionSays(s, id, c))
    requires c.error.Some? && id < |s.tables.connections| && s.tables.connections[id].error.None? ==> Holding(s, me, id)
    ensures RecordsOk(SetConnection(s, id, c)) && RecordsAdvance(s, SetConnection(s, id, c), me)
  {
    var t := SetConnection(s, id, c);
    forall i | 0 <= i < |t.tables.connections|
      ensures ConnectionSays(t, i, t.tables.connections[i])
    {
      assert i != id ==> t.tables.connections[i] == s.tables.connections[i];
    }
  }

  lemma UnlinkSays(s: Store, me: nat, id: nat, now: int)
    requires RecordsOk(s)
    ensures var t := SetConnection(s, id, Connections.Unlinked(ConnectionAt(s, id), now)); RecordsOk(t) && RecordsAdvance(s, t, me)
  {
    RowSays(s, me, id, Connections.Unlinked(ConnectionAt(s, id), now));
  }

  lemma OpenSays(s: Store, me: nat)
    requires RecordsOk(s) && HistoryOk(s)
    ensures var t := s.(tables := s.tables.(connections := s.tables.connections + [Open(SCOPE)]),
                        openers := s.openers[|s.tables.connections| := me]);
            RecordsOk(t) && RecordsAdvance(s, t, me)
  {
    var t := s.(tables := s.tables.(connections := s.tables.connections + [Open(SCOPE)]),
                openers := s.openers[|s.tables.connections| := me]);
    forall i | 0 <= i < |t.tables.connections|
      ensures ConnectionSays(t, i, t.tables.connections[i])
    {
      assert i < |s.tables.connections| ==> t.tables.connections[i] == s.tables.connections[i];
    }
  }

  lemma ExchangeSays(s: Store, me: nat, id: nat, x: Exchange)
    requires RecordsOk(s) && HistoryOk(s) && Holding(s, me, id) && id !in s.exchanges && id !in s.stored
    requires id < |s.tables.connections| && s.tables.connections[id].error.None?
    ensures var t := s.(exchanges := s.exchanges + [id], grants := s.grants[id := x]); RecordsOk(t) && RecordsAdvance(s, t, me)
  {
    var t := s.(exchanges := s.exchanges + [id], grants := s.grants[id := x]);
    assert !IsConnected(s.tables, id);
    forall i | 0 <= i < |t.tables.connections|
      ensures ConnectionSays(t, i, t.tables.connections[i])
    {
      assert ConnectionSays(s, i, s.tables.connections[i]);
    }
    forall y
      ensures y in t.grants <==> y in t.exchanges
    {
      assert y in t.exchanges <==> y in s.exchanges || y == id;
    }
  }

  lemma CredentialSays(s: Store, t: Store, me: nat)
    requires RecordsOk(s) && t == s.(tables := s.tables.(credentials := t.tables.credentials), stored := t.stored)
    requires forall id :: id in t.tables.credentials ==>
               id in s.grants && s.grants[id].Granted? && t.tables.credentials[id] == s.grants[id].ciphertext
    ensures RecordsOk(t) && RecordsAdvance(s, t, me)
  {
    forall i | 0 <= i < |t.tables.connections|
      ensures ConnectionSays(t, i, t.tables.connections[i])
    {
      assert ConnectionSays(s, i, s.tables.connections[i]);
    }
  }

  lemma ConnectSays(s: Store, me: nat, id: nat, scopes: seq<string>, now: int)
    requires RecordsOk(s) && id in s.grants && s.grants[id].Granted? && s.grants[id].scopes == scopes
    ensures var t := SetConnection(s, id, Connections.Linked(ConnectionAt(s, id), scopes, now)).(linked := s.linked + {id});
            RecordsOk(t) && RecordsAdvance(s, t, me)
  {
    var c := Connections.Linked(ConnectionAt(s, id), scopes, now);
    RowSays(s, me, id, c);
    var u := SetConnection(s, id, c);
    var t := u.(linked := s.linked + {id});
    assert forall i :: 0 <= i < |t.tables.connections| ==> ConnectionSays(u, i, t.tables.connections[i]);
  }

  lemma StatesSay(s: Store, t: Store, me: nat)
    requires RecordsOk(s) && t == s.(tables := s.tables.(states := t.tables.states), consumers := t.consumers, consumptions := t.consumptions)
    requires forall id :: id in s.consumers ==> id in t.consumers
    ensures RecordsOk(t) && RecordsAdvance(s, t, me)
  {
    assert forall i :: 0 <= i < |t.tables.connections| ==> ConnectionSays(s, i, t.tables.connections[i]);
  }

  lemma EffectSays(s: Store, me: nat, k: Process, c: Choice, t: Store, r: Process)
    requires StoreOk(s) && RecordsOk(s) && ProcessOk(s, me, k) && ProcessSays(s, k) && Steps(s, me, k, c, t, r)
    ensures RecordsOk(t) && RecordsAdvance(s, t, me)
  {
    assert Unfold(c);
    SameSays(s, me);
    match k.pc
    case Opening(_) => OpenSays(s, me);
    case Issuing(_, _) => StatesSay(s, t, me);
    case Consuming(_, _) => StatesSay(s, t, me);
    case Exchanging(id) => ExchangeSays(s, me, id, c.exchange);
    case Rejecting(id, f) => RowSays(s, me, id, MarkedFailed(ConnectionAt(s, id), f));
    case Storing(_, _, _) => CredentialSays(s, t, me);
    case Connecting(id, scopes) => ConnectSays(s, me, id, scopes, c.now);
    case Erasing(_, _) => CredentialSays(s, t, me);
    case Closing(_, todo) => UnlinkSays(s, me, todo[0], c.now);
    case Deleting(_) => CredentialSays(s, t, me);
    case Ending(id) => UnlinkSays(s, me, id, c.now);
    case _ =>
  }

  lemma ConsumedSays(s: Store, me: nat, k: Process, c: Choice, t: Store, r: Process)
    requires StoreOk(s) && RecordsOk(s) && k.pc.Consuming? && Steps(s, me, k, c, t, r)
    ensures ProcessSays(t, r)
  {
    assert Unfold(c);
    var a := ConsumeAnswer(s.tables.states, k.pc.digest, c.now);
    if a.Consumed? {
      FreshHasNoError(s, k.pc.digest, c.now);
    }
  }

  /** A connection whose state is still unused has neither exchange nor error. */
  lemma FreshHasNoError(s: Store, digest: nat, now: int)
    requires StoreOk(s) && RecordsOk(s) && ConsumeAnswer(s.tables.states, digest, now).Consumed?
    ensures var id := ConsumeAnswer(s.tables.states, digest, now).connection;
            id < |s.tables.connections| && id !in s.grants && s.tables.connections[id].error.None?
  {
    var i := FindState(s.tables.states, digest).value;
    assert RowOk(s, s.tables.states[i]);
    assert ConnectionSays(s, s.tables.states[i].connection, s.tables.connections[s.tables.states[i].connection]);
  }

  lemma GrantSays(s: Store, me: nat, k: Process, c: Choice, t: Store, r: Process)
    requires ProcessSays(s, k) && Steps(s, me, k, c, t, r) && (k.pc.Exchanging? || k.pc.Storing?)
    ensures ProcessSays(t, r)
  {
    assert Unfold(c);
  }

  lemma SilentStep(s: Store, me: nat, k: Process, c: Choice, t: Store, r: Process)
    requires Steps(s, me, k, c, t, r) && !k.pc.Consuming? && !k.pc.Exchanging? && !k.pc.Storing?
    requires k.pc.Done? ==> ProcessSays(t, k)
    ensures ProcessSays(t, r)
  {
    assert Unfold(c);
  }

  ghost predicate SayingOk(s: State) {
    StateOk(s) && RecordsOk(s.store) && forall i :: 0 <= i < |s.processes| ==> ProcessSays(s.store, s.processes[i])
  }

  lemma ActSays(s: State, me: nat, c: Choice)
    requires SayingOk(s) && Possible(s, Act(me, c))
    ensures SayingOk(Apply(s, Act(me, c)))
  {
    var t := Apply(s, Act(me, c));
    var k := s.processes[me];
    ActOk(s, me, c);
    ActSteps(s, me, c);
    EffectSays(s.store, me, k, c, t.store, t.processes[me]);
    forall i | 0 <= i < |t.processes|
      ensures ProcessSays(t.store, t.processes[i])
    {
      if i != me {
        OthersSay(s.store, t.store, me, i, s.processes[i]);
      } else if k.pc.Consuming? {
        ConsumedSays(s.store, me, k, c, t.store, t.processes[me]);
      } else if k.pc.Exchanging? || k.pc.Storing? {
        GrantSays(s.store, me, k, c, t.store, t.processes[me]);
      } else {
        SilentStep(s.store, me, k, c, t.store, t.processes[me]);
      }
    }
  }

  lemma {:induction false} RunSays(s: State, events: seq<Event>, t: State)
    requires SayingOk(s) && Run(s, events, t)
    ensures SayingOk(t)
    decreases |events|
  {
    if events != [] {
      var next := Apply(s, events[0]);
      if events[0].Act? {
        ActSays(s, events[0].who, events[0].choice);
      } else {
        EventOk(s, events[0]);
        forall i | 0 <= i < |next.processes|
          ensures ProcessSays(next.store, next.processes[i])
        {
          if i < |s.processes| {
            assert ProcessSays(s.store, s.processes[i]);
          }
        }
      }
      RunSays(next, events[1..], t);
    }
  }

  /** In every reachable state: a CONNECTED connection has the scopes that its one code exchange
      granted and no error, every credential is the ciphertext of that exchange, and an error
      is the one the exchange raised, or says that there was no code. */
  lemma ConnectionsTellTheTruth(s: State, id: nat)
    requires Reachable(s) && id < |s.store.tables.connections|
    ensures ConnectionSays(s.store, id, s.store.tables.connections[id])
    ensures id in s.store.tables.credentials ==>
              id in s.store.grants && s.store.grants[id].Granted? && s.store.tables.credentials[id] == s.store.grants[id].ciphertext
  {
    var events :| Run(INITIAL, events, s);
    InitialOk();
    RunSays(INITIAL, events, s);
  }
}
