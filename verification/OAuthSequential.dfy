/** The connection operations run one at a time: each starts when the one before has returned. */
module OAuthSequential {
  import opened Values
  import opened Connections
  import opened OAuthProtocol
  import opened OAuthSafety

  /** Nothing arrives while an operation is in flight, and none vanishes. */
  predicate InTurn(s: State, e: Event) {
    e.Act? || (!e.Crash? && forall i :: 0 <= i < |s.processes| ==> s.processes[i].pc.Done?)
  }

  predicate CanTakeTurns(s: State, events: seq<Event>)
    decreases |events|
  {
    events == [] || (Possible(s, events[0]) && InTurn(s, events[0]) && CanTakeTurns(Apply(s, events[0]), events[1..]))
  }

  /** The operation in flight, if any, is the last that arrived. */
  function Current(ps: seq<Process>): Pc {
    if ps == [] then Done(Raised) else ps[|ps| - 1].pc
  }

  /** The connection whose credential and status are between their two writes. */
  predicate Between(pc: Pc, id: nat) {
    match pc
    case Connecting(x, _) => x == id
    case Closing(_, todo) => todo != [] && todo[0] == id
    case Ending(x) => x == id
    case _ => false
  }

  /** The credential comes first when connecting and goes first when disconnecting. */
  ghost predicate Paired(s: Store, pc: Pc, id: nat) {
    if Between(pc, id) then id in s.tables.credentials <==> pc.Connecting?
    else id in s.tables.credentials <==> IsConnected(s.tables, id)
  }

  predicate Links(pc: Pc, id: nat) {
    match pc
    case Listing(x) => x == id
    case Erasing(x, _) => x == id
    case Closing(x, _) => x == id
    case _ => false
  }

  ghost predicate PairedOk(s: Store, pc: Pc) {
    && (forall id :: Paired(s, pc, id))
    && (forall id :: Links(pc, id) ==> IsConnected(s.tables, id))
  }

  ghost predicate TurnOk(s: State) {
    && StateOk(s) && PairedOk(s.store, Current(s.processes))
    && forall i :: 0 <= i < |s.processes| - 1 ==> s.processes[i].pc.Done?
  }

  lemma PairedGrant(s: Store, me: nat, k: Process, c: Choice, t: Store, r: Process, id: nat)
    requires StoreOk(s) && ProcessOk(s, me, k) && PairedOk(s, k.pc) && Steps(s, me, k, c, t, r)
    requires k.pc.Exchanging? || k.pc.Rejecting? || k.pc.Storing? || k.pc.Connecting?
    ensures Paired(t, r.pc, id) && (Links(r.pc, id) ==> IsConnected(t.tables, id))
  {
    assert Unfold(c);
    assert Paired(s, k.pc, id);
  }

  lemma PairedSweep(s: Store, me: nat, k: Process, c: Choice, t: Store, r: Process, id: nat)
    requires StoreOk(s) && ProcessOk(s, me, k) && PairedOk(s, k.pc) && Steps(s, me, k, c, t, r)
    requires k.pc.Listing? || k.pc.Erasing? || k.pc.Closing?
    ensures Paired(t, r.pc, id) && (Links(r.pc, id) ==> IsConnected(t.tables, id))
  {
    assert Unfold(c);
    assert Paired(s, k.pc, id);
  }

  lemma PairedStep(s: Store, me: nat, k: Process, c: Choice, t: Store, r: Process, id: nat)
    requires StoreOk(s) && ProcessOk(s, me, k) && PairedOk(s, k.pc) && Steps(s, me, k, c, t, r)
    ensures Paired(t, r.pc, id) && (Links(r.pc, id) ==> IsConnected(t.tables, id))
  {
    if k.pc.Exchanging? || k.pc.Rejecting? || k.pc.Storing? || k.pc.Connecting? {
      PairedGrant(s, me, k, c, t, r, id);
    } else if k.pc.Listing? || k.pc.Erasing? || k.pc.Closing? {
      PairedSweep(s, me, k, c, t, r, id);
    } else {
      PairedOtherwise(s, me, k, c, t, r, id);
    }
  }

  lemma PairedOtherwise(s: Store, me: nat, k: Process, c: Choice, t: Store, r: Process, id: nat)
    requires StoreOk(s) && ProcessOk(s, me, k) && PairedOk(s, k.pc) && Steps(s, me, k, c, t, r)
    requires k.pc.Opening? || k.pc.Issuing? || k.pc.Consuming? || k.pc.Reading? || k.pc.Deleting? || k.pc.Ending? || k.pc.Done?
    ensures Paired(t, r.pc, id) && (Links(r.pc, id) ==> IsConnected(t.tables, id))
  {
    assert Unfold(c);
    assert Paired(s, k.pc, id);
  }

  lemma TurnStep(s: State, who: nat, c: Choice)
    requires TurnOk(s) && Possible(s, Act(who, c))
    ensures who == |s.processes| - 1 && TurnOk(Apply(s, Act(who, c)))
  {
    var t := Apply(s, Act(who, c));
    ActOk(s, who, c);
    ActSteps(s, who, c);
    forall id
      ensures Paired(t.store, Current(t.processes), id) && (Links(Current(t.processes), id) ==> IsConnected(t.store.tables, id))
    {
      PairedStep(s.store, who, s.processes[who], c, t.store, t.processes[who], id);
    }
  }

  lemma TurnArrival(s: State, e: Event)
    requires TurnOk(s) && Possible(s, e) && InTurn(s, e) && !e.Act?
    ensures TurnOk(Apply(s, e))
  {
    var t := Apply(s, e);
    EventOk(s, e);
    forall id
      ensures Paired(t.store, Current(t.processes), id) && !Links(Current(t.processes), id)
    {
      assert Paired(s.store, Current(s.processes), id);
    }
  }

  lemma {:induction false} TurnsOk(s: State, events: seq<Event>)
    requires TurnOk(s) && CanTakeTurns(s, events)
    ensures CanRun(s, events) && TurnOk(Reach(s, events))
    decreases |events|
  {
    if events != [] {
      if events[0].Act? {
        TurnStep(s, events[0].who, events[0].choice);
      } else {
        TurnArrival(s, events[0]);
      }
      TurnsOk(Apply(s, events[0]), events[1..]);
    }
  }

  ghost predicate ReachableInTurn(s: State) {
    exists events :: CanTakeTurns(INITIAL, events) && CanRun(INITIAL, events) && Reach(INITIAL, events) == s
  }

  lemma ReachableTurnOk(s: State)
    requires ReachableInTurn(s)
    ensures TurnOk(s)
  {
    var events :| CanTakeTurns(INITIAL, events) && CanRun(INITIAL, events) && Reach(INITIAL, events) == s;
    InitialOk();
    TurnsOk(INITIAL, events);
  }

  /** Between operations a credential exists for a connection exactly when it is CONNECTED. */
  lemma CredentialIffConnected(s: State, id: nat)
    requires ReachableInTurn(s) && Quiet(s)
    ensures id in s.store.tables.credentials <==> IsConnected(s.store.tables, id)
  {
    ReachableTurnOk(s);
    assert Paired(s.store, Current(s.processes), id);
  }

  /** A successful callback leaves its connection as the only CONNECTED one. */
  lemma CallbackLeavesOne(s: State, who: nat, c: Choice, id: nat, d: nat)
    requires ReachableInTurn(s) && Possible(s, Act(who, c))
    requires Apply(s, Act(who, c)).processes[who].pc == Done(Linked(id))
    ensures IsConnected(Apply(s, Act(who, c)).store.tables, d) <==> d == id
  {
    ReachableTurnOk(s);
    TurnStep(s, who, c);
    var t := Apply(s, Act(who, c));
    var k := s.processes[who];
    ActSteps(s, who, c);
    StaysConnected(s.store, who, k, c, t.store, t.processes[who], id);
    if IsConnected(t.store.tables, d) {
      OneWhenQuiet(t, id, d);
    }
  }

  lemma StaysConnected(s: Store, me: nat, k: Process, c: Choice, t: Store, r: Process, id: nat)
    requires ProcessOk(s, me, k) && PairedOk(s, k.pc) && !k.pc.Done? && Steps(s, me, k, c, t, r) && r.pc == Done(Linked(id))
    ensures IsConnected(t.tables, id)
  {
    assert Unfold(c);
    assert Links(k.pc, id);
  }
}
