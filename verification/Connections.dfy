/** Connections, credentials and OAuth states: apps/api/publishing/connection_repository.py
    and the tables behind it. */
module Connections {
  import opened Values

  datatype Status = Pending | Connected | Failed | Disconnected

  /** The errors that a callback records on its connection. */
  datatype Failure = CodeMissing | NotConfigured | RefreshTokenMissing | ExchangeFailed | EncryptionFailed

  /** A connection; its id is its position in the table. */
  datatype Connection = Connection(
    status: Status,
    scopes: seq<string>,
    error: Option<Failure>,
    connectedAt: Option<int>,
    disconnectedAt: Option<int>)

  /** A state row. The digest of a token stands for the token: digests do not collide. */
  datatype StateRow = StateRow(connection: nat, digest: nat, expiresAt: int, consumedAt: Option<int>)

  /** credentials maps a connection to its ciphertext; the column is unique. */
  datatype Tables = Tables(connections: seq<Connection>, states: seq<StateRow>, credentials: map<nat, nat>)

  function Open(scopes: seq<string>): Connection {
    Connection(Pending, scopes, None, None, None)
  }

  predicate IsConnected(t: Tables, id: nat) {
    id < |t.connections| && t.connections[id].status.Connected?
  }

  function Update(t: Tables, id: nat, c: Connection): Tables
    requires id < |t.connections|
  {
    t.(connections := t.connections[id := c])
  }

  function MarkedFailed(c: Connection, f: Failure): Connection {
    c.(status := Failed, error := Some(f))
  }

  function Linked(c: Connection, scopes: seq<string>, now: int): Connection {
    Connection(Connected, scopes, None, Some(now), None)
  }

  function Unlinked(c: Connection, now: int): Connection {
    c.(status := Disconnected, disconnectedAt := Some(now))
  }

  function FindState(states: seq<StateRow>, digest: nat): (r: Option<nat>)
    ensures r.Some? ==> r.value < |states| && states[r.value].digest == digest
    ensures r.None? ==> forall i :: 0 <= i < |states| ==> states[i].digest != digest
  {
    if states == [] then None
    else if states[|states| - 1].digest == digest then Some(|states| - 1)
    else FindState(states[..|states| - 1], digest)
  }

  datatype Consumption = Consumed(connection: nat) | Invalid | Expired | Reused

  function ConsumeAnswer(states: seq<StateRow>, digest: nat, now: int): Consumption {
    match FindState(states, digest)
    case None => Invalid
    case Some(i) =>
      if states[i].consumedAt.Some? then Reused
      else if states[i].expiresAt <= now then Expired
      else Consumed(states[i].connection)
  }

  function ConsumeStates(states: seq<StateRow>, digest: nat, now: int): seq<StateRow> {
    match FindState(states, digest)
    case None => states
    case Some(i) =>
      if states[i].consumedAt.Some? || states[i].expiresAt <= now then states
      else states[i := states[i].(consumedAt := Some(now))]
  }

  // ----- the list of active connections -----

  function ConnectedAt(connections: seq<Connection>, id: nat): int {
    if id < |connections| && connections[id].connectedAt.Some? then connections[id].connectedAt.value else 0
  }

  /** Insert an id behind those that were connected no later. */
  function Place(connections: seq<Connection>, ids: seq<nat>, id: nat): (r: seq<nat>)
    ensures forall x: nat :: x in r <==> x in ids || x == id
  {
    if ids == [] then [id]
    else if ConnectedAt(connections, ids[|ids| - 1]) <= ConnectedAt(connections, id) then ids + [id]
    else
      var r := Place(connections, ids[..|ids| - 1], id) + [ids[|ids| - 1]];
      assert ids == ids[..|ids| - 1] + [ids[|ids| - 1]];
      r
  }

  /** The CONNECTED ones of the first n connections, in the order of their connection times. */
  function ActiveUpTo(connections: seq<Connection>, n: nat): seq<nat>
    requires n <= |connections|
  {
    if n == 0 then []
    else
      var before := ActiveUpTo(connections, n - 1);
      if connections[n - 1].status.Connected? then Place(connections, before, n - 1) else before
  }

  lemma {:induction false} ActiveMembers(connections: seq<Connection>, n: nat, id: nat)
    requires n <= |connections|
    ensures id in ActiveUpTo(connections, n) <==> id < n && connections[id].status.Connected?
  {
    if n > 0 {
      ActiveMembers(connections, n - 1, id);
    }
  }

  function Active(connections: seq<Connection>): seq<nat> {
    ActiveUpTo(connections, |connections|)
  }

  function Without(ids: seq<nat>, id: nat): (r: seq<nat>)
    ensures forall x: nat :: x in r <==> x in ids && x != id
  {
    if ids == [] then []
    else
      var rest := Without(ids[..|ids| - 1], id);
      assert ids == ids[..|ids| - 1] + [ids[|ids| - 1]];
      if ids[|ids| - 1] == id then rest else rest + [ids[|ids| - 1]]
  }

  ghost predicate ByTime(connections: seq<Connection>, ids: seq<nat>) {
    forall i, j :: 0 <= i < j < |ids| ==> ConnectedAt(connections, ids[i]) <= ConnectedAt(connections, ids[j])
  }

  lemma {:induction false} PlaceKeepsOrder(connections: seq<Connection>, ids: seq<nat>, id: nat)
    requires ByTime(connections, ids)
    ensures ByTime(connections, Place(connections, ids, id))
    ensures |Place(connections, ids, id)| == |ids| + 1
  {
    if ids != [] && ConnectedAt(connections, ids[|ids| - 1]) > ConnectedAt(connections, id) {
      var before, last := ids[..|ids| - 1], ids[|ids| - 1];
      PlaceKeepsOrder(connections, before, id);
      var r := Place(connections, before, id);
      forall i | 0 <= i < |r|
        ensures ConnectedAt(connections, r[i]) <= ConnectedAt(connections, last)
      {
        assert r[i] in r;
        assert r[i] == id || exists k :: 0 <= k < |before| && before[k] == r[i];
      }
    }
  }

  /** The active list is ordered by connection time. */
  lemma {:induction false} ActiveSorted(connections: seq<Connection>, n: nat)
    requires n <= |connections|
    ensures ByTime(connections, ActiveUpTo(connections, n))
  {
    if n == 0 {
      assert ActiveUpTo(connections, n) == [];
    } else {
      var before := ActiveUpTo(connections, n - 1);
      ActiveSorted(connections, n - 1);
      PlaceKeepsOrder(connections, before, n - 1);
      assert ActiveUpTo(connections, n) == if connections[n - 1].status.Connected? then Place(connections, before, n - 1) else before;
    }
  }

  /** The three repositories over their tables, one atomic call a method. */
  class ConnectionRepositories {
    var connections: seq<Connection>
    var states: seq<StateRow>
    var credentials: map<nat, nat>

    constructor ()
      ensures View() == Tables([], [], map[])
    {
      connections, states, credentials := [], [], map[];
    }

    function View(): Tables
      reads this
    {
      Tables(connections, states, credentials)
    }

    method CreateConnection(scopes: seq<string>) returns (id: nat)
      modifies this`connections
      ensures id == |old(connections)| && connections == old(connections) + [Open(scopes)]
    {
      id := |connections|;
      connections := connections + [Open(scopes)];
    }

    /** update: None when there is no such connection. */
    method Store(id: nat, c: Connection) returns (found: bool)
      modifies this`connections
      ensures found <==> id < |old(connections)|
      ensures View() == if found then Update(old(View()), id, c) else old(View())
    {
      found := id < |connections|;
      if found {
        connections := connections[id := c];
      }
    }

    method ListActive() returns (ids: seq<nat>)
      ensures ids == Active(connections)
    {
      ids := [];
      for i := 0 to |connections|
        invariant ids == ActiveUpTo(connections, i)
      {
        if connections[i].status.Connected? {
          ids := Place(connections, ids, i);
        }
      }
    }

    method CreateState(connection: nat, digest: nat, expiresAt: int) returns (created: bool)
      modifies this`states
      ensures created <==> FindState(old(states), digest).None?
      ensures states == if created then old(states) + [StateRow(connection, digest, expiresAt, None)] else old(states)
    {
      created := FindState(states, digest).None?;
      if created {
        states := states + [StateRow(connection, digest, expiresAt, None)];
      }
    }

    /** Under the row lock: the state is used up the first time it is presented in time. */
    method Consume(digest: nat, now: int) returns (r: Consumption)
      modifies this`states
      ensures r == ConsumeAnswer(old(states), digest, now)
      ensures states == ConsumeStates(old(states), digest, now)
    {
      var found := FindState(states, digest);
      if found.None? {
        return Invalid;
      }
      var state := states[found.value];
      if state.consumedAt.Some? {
        return Reused;
      }
      if state.expiresAt <= now {
        return Expired;
      }
      states := states[found.value := state.(consumedAt := Some(now))];
      r := Consumed(state.connection);
    }

    /** The unique column rejects a second credential of a connection. */
    method CreateCredential(connection: nat, ciphertext: nat) returns (created: bool)
      modifies this`credentials
      ensures created <==> connection !in old(credentials)
      ensures credentials == if created then old(credentials)[connection := ciphertext] else old(credentials)
    {
      created := connection !in credentials;
      if created {
        credentials := credentials[connection := ciphertext];
      }
    }

    method DeleteByConnection(connection: nat)
      modifies this`credentials
      ensures credentials == old(credentials) - {connection}
    {
      credentials := credentials - {connection};
    }
  }
}
