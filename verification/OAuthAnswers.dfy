/** What an authorization and a callback answer, said in terms of the tables they find. */
module OAuthAnswers {
  import opened Values
  import opened Connections
  import opened OAuthProtocol
  import Safety = OAuthSafety

  // ----- the callback -----

  /** The one state row with this digest, if there is one. */
  ghost predicate RowAt(states: seq<StateRow>, digest: nat, i: nat) {
    i < |states| && states[i].digest == digest
  }

  /** A state that nobody issued is refused as invalid. */
  lemma UnknownStateIsInvalid(s: State, who: nat, c: Choice)
    requires Possible(s, Act(who, c)) && s.processes[who].pc.Consuming?
    requires forall i :: !RowAt(s.store.tables.states, s.processes[who].pc.digest, i)
    ensures var t := Apply(s, Act(who, c)); t.store == s.store && t.processes[who].pc == Done(Refused(InvalidState))
  {
    var digest := s.processes[who].pc.digest;
    var found := FindState(s.store.tables.states, digest);
    assert found.Some? ==> RowAt(s.store.tables.states, digest, found.value);
  }

  /** A state is refused as used when it was consumed, and otherwise as expired when its time has
      come; neither changes anything. Any other state is consumed now, and its connection goes on
      to the exchange of the code, if there is a code and a configuration. */
  lemma IssuedStateIsAnswered(s: State, who: nat, c: Choice, i: nat)
    requires Safety.Reachable(s) && Possible(s, Act(who, c)) && s.processes[who].pc.Consuming?
    requires RowAt(s.store.tables.states, s.processes[who].pc.digest, i)
    ensures var row := s.store.tables.states[i];
            var t := Apply(s, Act(who, c));
            var pc := t.processes[who].pc;
            && (row.consumedAt.Some? ==> t.store == s.store && pc == Done(Refused(ReusedState)))
            && (row.consumedAt.None? && row.expiresAt <= c.now ==> t.store == s.store && pc == Done(Refused(ExpiredState)))
            && (row.consumedAt.None? && c.now < row.expiresAt ==>
                  && t.store.tables == s.store.tables.(states := s.store.tables.states[i := row.(consumedAt := Some(c.now))])
                  && pc == if !s.processes[who].pc.code then Rejecting(row.connection, CodeMissing)
                           else if c.configured then Exchanging(row.connection)
                           else Done(Refused(Misconfigured)))
  {
    Safety.ReachableOk(s);
    var digest := s.processes[who].pc.digest;
    var found := FindState(s.store.tables.states, digest);
    assert found == Some(i);
  }

  /** What the exchange grants is stored, what it denies is recorded and reported, and anything
      else ends the callback as it stands. */
  lemma ExchangeIsAnswered(s: State, who: nat, c: Choice)
    requires Possible(s, Act(who, c)) && s.processes[who].pc.Exchanging?
    ensures var id := s.processes[who].pc.connection;
            var t := Apply(s, Act(who, c));
            && t.store.tables == s.store.tables
            && match c.exchange
               case Granted(ciphertext, scopes) => t.processes[who].pc == Storing(id, ciphertext, scopes)
               case Denied(f) => t.processes[who].pc == Rejecting(id, f)
               case Broken => t.processes[who].pc == Done(Raised)
  {
  }

  /** A rejection marks the connection FAILED with its error, and is what the callback raises. */
  lemma RejectionIsRecorded(s: State, who: nat, c: Choice)
    requires Safety.Reachable(s) && Possible(s, Act(who, c)) && s.processes[who].pc.Rejecting?
    ensures var id, f := s.processes[who].pc.connection, s.processes[who].pc.failure;
            var t := Apply(s, Act(who, c));
            && t.processes[who].pc == Done(Refused(Reason.Because(f)))
            && id < |s.store.tables.connections|
            && t.store.tables.connections[id] == s.store.tables.connections[id].(status := Status.Failed, error := Some(f))
  {
    Safety.ReachableOk(s);
    assert Safety.ProcessOk(s.store, who, s.processes[who]);
  }

  // ----- the authorization -----

  /** An authorization without configuration is refused; otherwise it opens a PENDING connection. */
  lemma AuthorizationOpens(s: State, configured: bool, now: int, ttl: int)
    ensures var pc := Apply(s, Authorize(configured, now, ttl)).processes[|s.processes|].pc;
            pc == if configured then Opening(now + ttl) else Done(Refused(Misconfigured))
  {
  }

  ghost predicate Asked(events: seq<Event>, expiresAt: int) {
    exists now, ttl :: Authorize(true, now, ttl) in events && expiresAt == now + ttl
  }

  ghost predicate ProcessAsked(events: seq<Event>, pc: Pc) {
    match pc
    case Opening(expiresAt) => Asked(events, expiresAt)
    case Issuing(_, expiresAt) => Asked(events, expiresAt)
    case Done(Authorized(_, expiresAt)) => Asked(events, expiresAt)
    case _ => true
  }

  ghost predicate AskedOk(events: seq<Event>, s: State) {
    && (forall i :: 0 <= i < |s.processes| ==> ProcessAsked(events, s.processes[i].pc))
    && (forall i :: 0 <= i < |s.store.tables.states| ==> Asked(events, s.store.tables.states[i].expiresAt))
  }

  lemma ActAsked(events: seq<Event>, s: State, who: nat, c: Choice)
    requires AskedOk(events, s) && Possible(s, Act(who, c))
    ensures AskedOk(events, Apply(s, Act(who, c)))
  {
    var t := Apply(s, Act(who, c));
    forall i | 0 <= i < |t.store.tables.states|
      ensures Asked(events, t.store.tables.states[i].expiresAt)
    {
      if i < |s.store.tables.states| {
        assert t.store.tables.states[i].expiresAt == s.store.tables.states[i].expiresAt;
      }
    }
  }

  lemma EventAsked(events: seq<Event>, s: State, e: Event)
    requires AskedOk(events, s) && Possible(s, e) && e in events
    ensures AskedOk(events, Apply(s, e))
  {
    if e.Act? {
      ActAsked(events, s, e.who, e.choice);
    } else if e.Authorize? && e.configured {
      assert Authorize(true, e.now, e.ttl) in events;
    }
  }

  lemma {:induction false} RunAsked(all: seq<Event>, s: State, events: seq<Event>, t: State)
    requires AskedOk(all, s) && Run(s, events, t) && forall i :: 0 <= i < |events| ==> events[i] in all
    ensures AskedOk(all, t)
    decreases |events|
  {
    if events != [] {
      assert events[0] in all;
      EventAsked(all, s, events[0]);
      RunAsked(all, Apply(s, events[0]), events[1..], t);
    }
  }

  /** Every state that was ever issued, and every expiry that was ever answered, is that of some
      authorization: its time and the lifetime it asked for. */
  lemma StatesExpireAsAsked(events: seq<Event>, s: State, i: nat)
    requires Run(INITIAL, events, s) && i < |s.store.tables.states|
    ensures exists now, ttl :: Authorize(true, now, ttl) in events && s.store.tables.states[i].expiresAt == now + ttl
  {
    RunAsked(events, INITIAL, events, s);
    assert Asked(events, s.store.tables.states[i].expiresAt);
  }

  // ----- what is missing -----

  /** A callback without a state is refused at once; any other consumes the state it brought. */
  lemma CallbackStarts(s: State, state: Option<nat>, code: bool)
    ensures var pc := Apply(s, CallBack(state, code)).processes[|s.processes|].pc;
            && (state.None? ==> pc == Done(Refused(InvalidState)))
            && (state.Some? ==> pc == Consuming(state.value, code))
  {
  }

  /** A disconnect of no connection is refused, one of a DISCONNECTED connection returns it as it
      is, and any other goes on to delete the credential. */
  lemma DisconnectStarts(s: State, who: nat, c: Choice)
    requires Possible(s, Act(who, c)) && s.processes[who].pc.Reading?
    ensures var id := s.processes[who].pc.connection;
            var t := Apply(s, Act(who, c));
            && t.store == s.store
            && t.processes[who].pc == if id >= |s.store.tables.connections| then Done(Refused(Missing))
                                      else if s.store.tables.connections[id].status == Status.Disconnected then Done(Unlinked(id))
                                      else Deleting(id)
  {
  }

  /** A connection that a callback or a disconnect is working on never goes missing. */
  lemma NothingGoesMissing(s: State, who: nat, c: Choice)
    requires Safety.Reachable(s) && Possible(s, Act(who, c))
    ensures var pc, next := s.processes[who].pc, Apply(s, Act(who, c)).processes[who].pc;
            && (pc.Connecting? ==> next == Listing(pc.connection))
            && (pc.Ending? ==> next == Done(Unlinked(pc.connection)))
            && (next == Done(Refused(Missing)) ==> pc.Reading?)
  {
    Safety.ReachableOk(s);
    assert Safety.ProcessOk(s.store, who, s.processes[who]);
  }

  /** The states change in the one case in which a state is consumed, and then only that row. */
  lemma OnlyConsumingChanges(states: seq<StateRow>, digest: nat, now: int)
    ensures var after := ConsumeStates(states, digest, now);
            match FindState(states, digest)
            case None => after == states
            case Some(i) =>
              after == if states[i].consumedAt.None? && now < states[i].expiresAt
                       then states[i := states[i].(consumedAt := Some(now))] else states
  {
  }
}
