/** The connection service as it is written, over tables that other operations change between
    its calls. Each method is proved to follow the program counter of its process, so every run
    of it is a run of the protocol. Sources: apps/api/publishing/connection_service.py and
    connection_repository.py. */
module OAuthServices {
  import opened Values
  import opened Connections
  import opened OAuthProtocol

  /** Steps that leave process me alone. */
  predicate ByOthers(events: seq<Event>, me: nat) {
    forall i :: 0 <= i < |events| ==>
      (events[i].Act? ==> events[i].who != me) && (events[i].Crash? ==> events[i].who != me)
  }

  lemma {:induction false} OthersLeaveAlone(s: State, events: seq<Event>, t: State, me: nat)
    requires Run(s, events, t) && ByOthers(events, me) && me < |s.processes|
    ensures me < |t.processes| && t.processes[me] == s.processes[me]
    decreases |events|
  {
    if events != [] {
      assert ByOthers(events[1..], me);
      OthersLeaveAlone(Apply(s, events[0]), events[1..], t, me);
    }
  }

  class ConnectionWorld {
    const repositories: ConnectionRepositories
    const choices: nat -> Choice
    const others: (nat, State) -> seq<Event>
    var clock: nat
    var openers: map<nat, nat>
    var consumers: map<nat, nat>
    var consumptions: seq<nat>
    var exchanges: seq<nat>
    var grants: map<nat, OAuthProtocol.Exchange>
    var stored: set<nat>
    var linked: set<nat>
    var processes: seq<Process>
    ghost var trace: seq<Event>

    constructor (choices: nat -> Choice, others: (nat, State) -> seq<Event>)
      ensures Valid() && S() == INITIAL && this.choices == choices && this.others == others && fresh(repositories)
    {
      this.choices, this.others := choices, others;
      repositories := new ConnectionRepositories();
      clock, openers, consumers, consumptions, exchanges, grants := 0, map[], map[], [], [], map[];
      stored, linked, processes := {}, {}, [];
      trace := [];
    }

    function S(): State
      reads this, repositories
    {
      State(Store(repositories.View(), openers, consumers, consumptions, exchanges, grants, stored, linked), processes)
    }

    function Now(): Choice
      reads this
    {
      choices(clock)
    }

    /** The world has been reached by a run of the protocol. */
    ghost predicate Valid()
      reads this, repositories
    {
      Run(INITIAL, trace, S())
    }

    /** The others always take steps that they can take. */
    ghost predicate Fair(me: nat) {
      forall k, s: State :: CanRun(s, others(k, s)) && ByOthers(others(k, s), me)
    }

    /** Process me is running and stands at pc. */
    ghost predicate At(me: nat, pc: Pc)
      reads this, repositories
    {
      Valid() && Fair(me) && me < |processes| && processes[me] == Process(pc, true)
    }

    /** A request brings in a process. */
    method Arrive(e: Event, ghost pc: Pc) returns (me: nat)
      requires Valid() && Possible(S(), e) && Fair(|processes|)
      requires Apply(S(), e) == S().(processes := processes + [Process(pc, true)])
      modifies this
      ensures me == |old(processes)| && At(me, pc) && trace == old(trace) + [e] && clock == old(clock)
    {
      var s := Apply(S(), e);
      RunOne(INITIAL, trace, S(), e);
      me, processes, trace := |processes|, s.processes, trace + [e];
    }

    /** The others move, until process me makes its call. */
    method Interfere(me: nat, ghost pc: Pc)
      requires At(me, pc)
      modifies this, repositories
      ensures At(me, pc) && clock == old(clock) && old(trace) <= trace
    {
      var events := others(clock, S());
      var s := Reach(S(), events);
      ghost var before := S();
      OthersLeaveAlone(before, events, s, me);
      RunThen(INITIAL, trace, before, events, s);
      repositories.connections, repositories.states, repositories.credentials :=
        s.store.tables.connections, s.store.tables.states, s.store.tables.credentials;
      openers, consumers, consumptions := s.store.openers, s.store.consumers, s.store.consumptions;
      exchanges, grants := s.store.exchanges, s.store.grants;
      stored, linked, processes := s.store.stored, s.store.linked, s.processes;
      trace := trace + events;
    }

    /** Process me has made its call. */
    method Note(me: nat, ghost before: State, pc: Pc)
      requires Run(INITIAL, trace, before) && Possible(before, Act(me, Now())) && Fair(me)
      requires S() == State(StoreAfter(before.store, me, before.processes[me], Now()), before.processes)
      requires pc == PcAfter(before.store, before.processes[me], Now())
      modifies this
      ensures At(me, pc) && clock == old(clock) + 1 && old(trace) <= trace && repositories.View() == old(repositories.View())
    {
      RunOne(INITIAL, trace, before, Act(me, Now()));
      trace := trace + [Act(me, Now())];
      processes := processes[me := processes[me].(pc := pc)];
      clock := clock + 1;
    }

    method CreateConnection(me: nat, expiresAt: int) returns (id: nat)
      requires At(me, Opening(expiresAt))
      modifies this, repositories
      ensures At(me, Issuing(id, expiresAt)) && old(trace) <= trace
    {
      Interfere(me, Opening(expiresAt));
      ghost var before := S();
      id := repositories.CreateConnection(SCOPE);
      openers := openers[id := me];
      Note(me, before, Issuing(id, expiresAt));
    }

    method CreateState(me: nat, id: nat, digest: nat, expiresAt: int) returns (created: bool)
      requires At(me, Issuing(id, expiresAt)) && digest == Now().digest
      modifies this, repositories
      ensures At(me, Done(if created then Authorized(id, expiresAt) else Raised)) && old(trace) <= trace
    {
      Interfere(me, Issuing(id, expiresAt));
      ghost var before := S();
      created := repositories.CreateState(id, digest, expiresAt);
      Note(me, before, Done(if created then Authorized(id, expiresAt) else Raised));
    }

    /** configured is what the configuration check finds right after the call. */
    method Consume(me: nat, digest: nat, code: bool) returns (r: Consumption, configured: bool)
      requires At(me, Consuming(digest, code))
      modifies this, repositories
      ensures At(me, AfterConsume(r, code, configured)) && old(trace) <= trace
    {
      Interfere(me, Consuming(digest, code));
      ghost var before := S();
      r := repositories.Consume(digest, Now().now);
      configured := Now().configured;
      if r.Consumed? {
        consumers, consumptions := consumers[r.connection := me], consumptions + [digest];
      }
      Note(me, before, AfterConsume(r, code, configured));
    }

    /** The code exchange and the encryption of what it grants. */
    method Exchange(me: nat, id: nat) returns (x: OAuthProtocol.Exchange)
      requires At(me, Exchanging(id))
      modifies this, repositories
      ensures At(me, match x
                     case Granted(ciphertext, scopes) => Storing(id, ciphertext, scopes)
                     case Denied(f) => Rejecting(id, f)
                     case Broken => Done(Raised))
      ensures old(trace) <= trace
    {
      Interfere(me, Exchanging(id));
      ghost var before := S();
      x := Now().exchange;
      exchanges, grants := exchanges + [id], grants[id := x];
      Note(me, before, match x
                       case Granted(ciphertext, scopes) => Storing(id, ciphertext, scopes)
                       case Denied(f) => Rejecting(id, f)
                       case Broken => Done(Raised));
    }

    method RecordFailure(me: nat, id: nat, f: Failure)
      requires At(me, Rejecting(id, f))
      modifies this, repositories
      ensures At(me, Done(Refused(Because(f)))) && old(trace) <= trace
    {
      Interfere(me, Rejecting(id, f));
      ghost var before := S();
      if id < |repositories.connections| {
        var found := repositories.Store(id, MarkedFailed(repositories.connections[id], f));
      }
      Note(me, before, Done(Refused(Because(f))));
    }

    method CreateCredential(me: nat, id: nat, ciphertext: nat, scopes: seq<string>) returns (created: bool)
      requires At(me, Storing(id, ciphertext, scopes))
      modifies this, repositories
      ensures At(me, if created then Connecting(id, scopes) else Done(Raised)) && old(trace) <= trace
    {
      Interfere(me, Storing(id, ciphertext, scopes));
      ghost var before := S();
      created := repositories.CreateCredential(id, ciphertext);
      if created {
        stored := stored + {id};
      }
      Note(me, before, if created then Connecting(id, scopes) else Done(Raised));
    }

    method Connect(me: nat, id: nat, scopes: seq<string>) returns (found: bool)
      requires At(me, Connecting(id, scopes))
      modifies this, repositories
      ensures At(me, if found then Listing(id) else Done(Refused(Missing))) && old(trace) <= trace
    {
      Interfere(me, Connecting(id, scopes));
      ghost var before := S();
      found := id < |repositories.connections|;
      if found {
        var _ := repositories.Store(id, Connections.Linked(repositories.connections[id], scopes, Now().now));
        linked := linked + {id};
      }
      Note(me, before, if found then Listing(id) else Done(Refused(Missing)));
    }

    method ListActive(me: nat, id: nat) returns (active: seq<nat>)
      requires At(me, Listing(id))
      modifies this, repositories
      ensures At(me, Sweep(id, Without(active, id))) && old(trace) <= trace
    {
      Interfere(me, Listing(id));
      ghost var before := S();
      active := repositories.ListActive();
      Note(me, before, Sweep(id, Without(active, id)));
    }

    /** Delete the credential of d, on behalf of a disconnection or of a callback. */
    method DeleteByConnection(me: nat, d: nat, ghost pc: Pc) returns (next: Pc)
      requires At(me, pc)
      requires pc == Deleting(d) || (pc.Erasing? && pc.todo != [] && pc.todo[0] == d)
      modifies this, repositories
      ensures At(me, if pc.Deleting? then Ending(d) else Closing(pc.connection, pc.todo)) && old(trace) <= trace
    {
      Interfere(me, pc);
      ghost var before := S();
      repositories.DeleteByConnection(d);
      next := match processes[me].pc
              case Erasing(id, todo) => Closing(id, todo)
              case _ => Ending(d);
      Note(me, before, next);
    }

    /** Set d DISCONNECTED, on behalf of a disconnection or of a callback. */
    method Disconnect(me: nat, d: nat, ghost pc: Pc) returns (found: bool)
      requires At(me, pc)
      requires pc == Ending(d) || (pc.Closing? && pc.todo != [] && pc.todo[0] == d)
      modifies this, repositories
      ensures At(me, if pc.Closing? then Sweep(pc.connection, pc.todo[1..])
                     else if found then Done(Unlinked(d)) else Done(Refused(Missing)))
      ensures old(trace) <= trace
    {
      Interfere(me, pc);
      ghost var before := S();
      found := d < |repositories.connections|;
      if found {
        var _ := repositories.Store(d, Connections.Unlinked(repositories.connections[d], Now().now));
      }
      var next := match processes[me].pc
                  case Closing(id, todo) => Sweep(id, todo[1..])
                  case _ => if found then Done(Unlinked(d)) else Done(Refused(Missing));
      Note(me, before, next);
    }

    method GetById(me: nat, id: nat) returns (c: Option<Connection>)
      requires At(me, Reading(id))
      modifies this, repositories
      ensures At(me, if c.None? then Done(Refused(Missing))
                     else if c.value.status.Disconnected? then Done(Unlinked(id)) else Deleting(id))
      ensures old(trace) <= trace
    {
      Interfere(me, Reading(id));
      ghost var before := S();
      c := if id < |repositories.connections| then Some(repositories.connections[id]) else None;
      Note(me, before, if c.None? then Done(Refused(Missing))
                       else if c.value.status.Disconnected? then Done(Unlinked(id)) else Deleting(id));
    }
  }

  /** Leaving out an id goes through a list from the front. */
  lemma {:induction false} WithoutFront(ids: seq<nat>, id: nat)
    requires ids != []
    ensures Without(ids, id) == if ids[0] == id then Without(ids[1..], id) else [ids[0]] + Without(ids[1..], id)
  {
    var n := |ids| - 1;
    if n > 0 {
      WithoutFront(ids[..n], id);
      assert ids[1..][..n - 1] == ids[..n][1..];
    } else {
      assert ids[1..] == [] && ids[..n] == [];
    }
  }

  class YouTubeConnectionService {
    const world: ConnectionWorld

    constructor (world: ConnectionWorld)
      ensures this.world == world
    {
      this.world := world;
    }

    /** Open a connection and issue its state; without configuration nothing is created. */
    method Authorize(me: nat, configured: bool, now: int, ttl: int) returns (o: Outcome)
      requires world.At(me, NewAuthorizer(configured, now, ttl).pc)
      modifies world, world.repositories
      ensures world.At(me, Done(o)) && old(world.trace) <= world.trace
      ensures !configured ==> o == Refused(Misconfigured) && world.trace == old(world.trace)
    {
      if !configured {
        return Refused(Misconfigured);
      }
      var expiresAt := now + ttl;
      var id := world.CreateConnection(me, expiresAt);
      var created := world.CreateState(me, id, world.Now().digest, expiresAt);
      o := if created then Authorized(id, expiresAt) else Raised;
    }

    /** Consume the state, exchange the code, store the credential, connect, and disconnect
        the others. */
    method Callback(me: nat, state: Option<nat>, code: bool) returns (o: Outcome)
      requires world.At(me, NewCallback(state, code).pc)
      modifies world, world.repositories
      ensures world.At(me, Done(o)) && old(world.trace) <= world.trace
    {
      if state.None? {
        return Refused(InvalidState);
      }
      var consumed, configured := world.Consume(me, state.value, code);
      match consumed
      case Invalid => return Refused(InvalidState);
      case Expired => return Refused(ExpiredState);
      case Reused => return Refused(ReusedState);
      case Consumed(id) =>
        if !code {
          o := MarkFailed(me, id, CodeMissing);
          return;
        }
        if !configured {
          return Refused(Misconfigured);
        }
        var exchange := world.Exchange(me, id);
        match exchange
        case Broken => return Raised;
        case Denied(failure) => o := MarkFailed(me, id, failure);
        case Granted(ciphertext, scopes) => o := Link(me, id, ciphertext, scopes);
    }

    method MarkFailed(me: nat, id: nat, f: Failure) returns (o: Outcome)
      requires world.At(me, Rejecting(id, f))
      modifies world, world.repositories
      ensures o == Refused(Because(f)) && world.At(me, Done(o)) && old(world.trace) <= world.trace
    {
      world.RecordFailure(me, id, f);
      o := Refused(Because(f));
    }

    /** The second half of a callback. */
    method Link(me: nat, id: nat, ciphertext: nat, scopes: seq<string>) returns (o: Outcome)
      requires world.At(me, Storing(id, ciphertext, scopes))
      modifies world, world.repositories
      ensures world.At(me, Done(o)) && old(world.trace) <= world.trace
    {
      var created := world.CreateCredential(me, id, ciphertext, scopes);
      if !created {
        return Raised;
      }
      var connected := world.Connect(me, id, scopes);
      if !connected {
        return Refused(Missing);
      }
      DisconnectPreviousConnections(me, id);
      o := Linked(id);
    }

    method DisconnectPreviousConnections(me: nat, id: nat)
      requires world.At(me, Listing(id))
      modifies world, world.repositories
      ensures world.At(me, Done(Linked(id))) && old(world.trace) <= world.trace
    {
      var active := world.ListActive(me, id);
      assert active[0..] == active;
      for i := 0 to |active|
        invariant world.At(me, Sweep(id, Without(active[i..], id))) && old(world.trace) <= world.trace
      {
        WithoutFront(active[i..], id);
        assert active[i..][1..] == active[i + 1..];
        if active[i] != id {
          ghost var todo := Without(active[i..], id);
          assert todo == [active[i]] + Without(active[i + 1..], id);
          assert todo[1..] == Without(active[i + 1..], id);
          var _ := world.DeleteByConnection(me, active[i], Erasing(id, todo));
          var _ := world.Disconnect(me, active[i], Closing(id, todo));
        }
      }
    }

    /** Delete the credential, then disconnect; a DISCONNECTED connection is left alone. */
    method Disconnect(me: nat, id: nat) returns (o: Outcome)
      requires world.At(me, NewDisconnecter(id).pc)
      modifies world, world.repositories
      ensures world.At(me, Done(o)) && old(world.trace) <= world.trace
    {
      var connection := world.GetById(me, id);
      if connection.None? {
        return Refused(Missing);
      }
      if connection.value.status.Disconnected? {
        return Unlinked(id);
      }
      var _ := world.DeleteByConnection(me, id, Deleting(id));
      var found := world.Disconnect(me, id, Ending(id));
      o := if found then Unlinked(id) else Refused(Missing);
    }
  }
}
