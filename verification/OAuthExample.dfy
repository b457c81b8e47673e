/** Concurrent operations that all succeed: two callbacks that disconnect each other, so that
    no connection is left CONNECTED, and a disconnect amid a callback that leaves credential and
    status apart. */
module OAuthExample {
  import opened Values
  import opened Connections
  import opened OAuthProtocol
  import OAuthSafety

  function At(pc: Pc): Process {
    Process(pc, true)
  }

  function Chosen(digest: nat): Choice {
    Choice(0, digest, true, Granted(9, []))
  }

  const NEW := Open(SCOPE)
  const UP := Connections.Linked(NEW, [], 0)
  const DOWN := Connections.Unlinked(UP, 0)

  function Row(id: nat, consumed: Option<int>): StateRow {
    StateRow(id, id, 10, consumed)
  }

  const ISSUED := Store(Tables([NEW, NEW], [Row(0, None), Row(1, None)], map[]), map[0 := 0, 1 := 1], map[], [], [], map[], {}, {})
  const CONSUMED := ISSUED.(tables := ISSUED.tables.(states := [Row(0, Some(0)), Row(1, Some(0))]),
                            consumers := map[0 := 2, 1 := 3], consumptions := [0, 1])
  const FIRST := CONSUMED.(tables := CONSUMED.tables.(connections := [UP, NEW], credentials := map[0 := 9]),
                           exchanges := [0], grants := map[0 := Granted(9, [])], stored := {0}, linked := {0})
  const BOTH := FIRST.(tables := FIRST.tables.(connections := [UP, UP], credentials := map[0 := 9, 1 := 9]),
                       exchanges := [0, 1], grants := map[0 := Granted(9, []), 1 := Granted(9, [])], stored := {0, 1}, linked := {0, 1})
  const NEITHER := BOTH.(tables := BOTH.tables.(connections := [DOWN, DOWN], credentials := map[]))

  function With(s: Store, a: Pc, b: Pc): State {
    State(s, [At(Done(Authorized(0, 10))), At(Done(Authorized(1, 10))), At(a), At(b)])
  }

  const AUTHORIZING: seq<Event> :=
    [Authorize(true, 0, 10), Act(0, Chosen(0)), Act(0, Chosen(0)), Authorize(true, 0, 10), Act(1, Chosen(1)), Act(1, Chosen(1))]
  const RETURNING: seq<Event> :=
    [CallBack(Some(0), true), CallBack(Some(1), true), Act(2, Chosen(0)), Act(3, Chosen(0))]
  const FIRST_LINKS: seq<Event> := [Act(2, Chosen(0)), Act(2, Chosen(0)), Act(2, Chosen(0))]
  const SECOND_LINKS: seq<Event> := [Act(3, Chosen(0)), Act(3, Chosen(0)), Act(3, Chosen(0))]
  const LISTING: seq<Event> := [Act(2, Chosen(0)), Act(3, Chosen(0))]
  const CLOSING: seq<Event> := [Act(2, Chosen(0)), Act(2, Chosen(0)), Act(3, Chosen(0)), Act(3, Chosen(0))]

  lemma Step(events: seq<Event>, s: State, t: State)
    requires events != [] && Possible(s, events[0]) && Run(Apply(s, events[0]), events[1..], t)
    ensures Run(s, events, t)
  {
  }

  const AUTHORIZED := State(ISSUED, [At(Done(Authorized(0, 10))), At(Done(Authorized(1, 10)))])

  lemma Authorizes()
    ensures Run(INITIAL, AUTHORIZING, AUTHORIZED)
  {
    var one := Tables([NEW], [], map[]);
    var s1 := State(EMPTY, [At(Opening(10))]);
    var s2 := State(EMPTY.(tables := one, openers := map[0 := 0]), [At(Issuing(0, 10))]);
    var s3 := State(EMPTY.(tables := one.(states := [Row(0, None)]), openers := map[0 := 0]), [At(Done(Authorized(0, 10)))]);
    var s4 := s3.(processes := s3.processes + [At(Opening(10))]);
    var s5 := State(ISSUED.(tables := ISSUED.tables.(states := [Row(0, None)])), s3.processes + [At(Issuing(1, 10))]);
    assert Apply(INITIAL, AUTHORIZING[0]) == s1;
    assert Apply(s1, AUTHORIZING[1]) == s2;
    assert Apply(s2, AUTHORIZING[2]) == s3;
    assert Apply(s3, AUTHORIZING[3]) == s4;
    assert Apply(s4, AUTHORIZING[4]) == s5;
    assert Apply(s5, AUTHORIZING[5]) == AUTHORIZED;
    assert AUTHORIZING[6..] == [];
    Step(AUTHORIZING[5..], s5, AUTHORIZED);
    Step(AUTHORIZING[4..], s4, AUTHORIZED);
    Step(AUTHORIZING[3..], s3, AUTHORIZED);
    Step(AUTHORIZING[2..], s2, AUTHORIZED);
    Step(AUTHORIZING[1..], s1, AUTHORIZED);
    Step(AUTHORIZING, INITIAL, AUTHORIZED);
  }

  lemma Return()
    ensures Run(AUTHORIZED, RETURNING, With(CONSUMED, Exchanging(0), Exchanging(1)))
  {
    var t := With(CONSUMED, Exchanging(0), Exchanging(1));
    var s1 := State(ISSUED, AUTHORIZED.processes + [At(Consuming(0, true))]);
    var s2 := With(ISSUED, Consuming(0, true), Consuming(1, true));
    var half := ISSUED.(tables := ISSUED.tables.(states := [Row(0, Some(0)), Row(1, None)]), consumers := map[0 := 2], consumptions := [0]);
    var s3 := With(half, Exchanging(0), Consuming(1, true));
    assert FindState(ISSUED.tables.states, 0) == Some(0);
    assert FindState(half.tables.states, 1) == Some(1);
    assert Apply(AUTHORIZED, RETURNING[0]) == s1;
    assert Apply(s1, RETURNING[1]) == s2;
    assert Apply(s2, RETURNING[2]) == s3;
    assert Apply(s3, RETURNING[3]) == t;
    assert RETURNING[4..] == [];
    Step(RETURNING[3..], s3, t);
    Step(RETURNING[2..], s2, t);
    Step(RETURNING[1..], s1, t);
    Step(RETURNING, AUTHORIZED, t);
  }

  lemma FirstLinks()
    ensures Run(With(CONSUMED, Exchanging(0), Exchanging(1)), FIRST_LINKS, With(FIRST, Listing(0), Exchanging(1)))
  {
    var s0 := With(CONSUMED, Exchanging(0), Exchanging(1));
    var t := With(FIRST, Listing(0), Exchanging(1));
    var s1 := With(CONSUMED.(exchanges := [0], grants := map[0 := Granted(9, [])]), Storing(0, 9, []), Exchanging(1));
    var s2 := With(FIRST.(tables := FIRST.tables.(connections := [NEW, NEW]), linked := {}), Connecting(0, []), Exchanging(1));
    assert Apply(s0, FIRST_LINKS[0]) == s1;
    assert Apply(s1, FIRST_LINKS[1]) == s2;
    assert Apply(s2, FIRST_LINKS[2]) == t;
    assert FIRST_LINKS[3..] == [];
    Step(FIRST_LINKS[2..], s2, t);
    Step(FIRST_LINKS[1..], s1, t);
    Step(FIRST_LINKS, s0, t);
  }

  lemma SecondLinks()
    ensures Run(With(FIRST, Listing(0), Exchanging(1)), SECOND_LINKS, With(BOTH, Listing(0), Listing(1)))
  {
    var s0 := With(FIRST, Listing(0), Exchanging(1));
    var t := With(BOTH, Listing(0), Listing(1));
    var s1 := With(FIRST.(exchanges := [0, 1], grants := map[0 := Granted(9, []), 1 := Granted(9, [])]), Listing(0), Storing(1, 9, []));
    var s2 := With(BOTH.(tables := BOTH.tables.(connections := [UP, NEW]), linked := {0}), Listing(0), Connecting(1, []));
    assert Apply(s0, SECOND_LINKS[0]) == s1;
    assert Apply(s1, SECOND_LINKS[1]) == s2;
    assert Apply(s2, SECOND_LINKS[2]) == t;
    assert SECOND_LINKS[3..] == [];
    Step(SECOND_LINKS[2..], s2, t);
    Step(SECOND_LINKS[1..], s1, t);
    Step(SECOND_LINKS, s0, t);
  }

  lemma BothListed()
    ensures Without(Active([UP, UP]), 0) == [1] && Without(Active([UP, UP]), 1) == [0]
  {
    var ups := [UP, UP];
    assert ActiveUpTo(ups, 0) == [];
    assert Place(ups, [], 0) == [0];
    assert ActiveUpTo(ups, 1) == [0];
    assert Place(ups, [0], 1) == [0, 1];
    assert Active(ups) == [0, 1];
    assert [0, 1][..1] == [0] && [0][..0] == [];
    assert Without([0], 0) == [] && Without([0], 1) == [0];
  }

  /** Listing takes a process to its worklist. */
  lemma ListStep(s: State, who: nat, id: nat, todo: seq<nat>)
    requires who < |s.processes| && s.processes[who] == At(Listing(id)) && todo != []
    requires Without(Active(s.store.tables.connections), id) == todo
    ensures Possible(s, Act(who, Chosen(0)))
    ensures Apply(s, Act(who, Chosen(0))) == State(s.store, s.processes[who := At(Erasing(id, todo))])
  {
  }

  lemma ListsFirst()
    ensures var s := With(BOTH, Listing(0), Listing(1));
            Possible(s, Act(2, Chosen(0))) && Apply(s, Act(2, Chosen(0))) == With(BOTH, Erasing(0, [1]), Listing(1))
  {
    BothListed();
    var s := With(BOTH, Listing(0), Listing(1));
    ListStep(s, 2, 0, [1]);
    assert s.processes[2 := At(Erasing(0, [1]))] == With(BOTH, Erasing(0, [1]), Listing(1)).processes;
  }

  lemma ListsSecond()
    ensures var s := With(BOTH, Erasing(0, [1]), Listing(1));
            Possible(s, Act(3, Chosen(0))) && Apply(s, Act(3, Chosen(0))) == With(BOTH, Erasing(0, [1]), Erasing(1, [0]))
  {
    BothListed();
    var s := With(BOTH, Erasing(0, [1]), Listing(1));
    ListStep(s, 3, 1, [0]);
    assert s.processes[3 := At(Erasing(1, [0]))] == With(BOTH, Erasing(0, [1]), Erasing(1, [0])).processes;
  }

  lemma Lists()
    ensures Run(With(BOTH, Listing(0), Listing(1)), LISTING, With(BOTH, Erasing(0, [1]), Erasing(1, [0])))
  {
    var s0 := With(BOTH, Listing(0), Listing(1));
    var s1 := With(BOTH, Erasing(0, [1]), Listing(1));
    var t := With(BOTH, Erasing(0, [1]), Erasing(1, [0]));
    ListsFirst();
    ListsSecond();
    assert LISTING[2..] == [];
    Step(LISTING[1..], s1, t);
    Step(LISTING, s0, t);
  }

  lemma Closes()
    ensures Run(With(BOTH, Erasing(0, [1]), Erasing(1, [0])), CLOSING, With(NEITHER, Done(Linked(0)), Done(Linked(1))))
  {
    var s0 := With(BOTH, Erasing(0, [1]), Erasing(1, [0]));
    var t := With(NEITHER, Done(Linked(0)), Done(Linked(1)));
    var erased := BOTH.(tables := BOTH.tables.(credentials := map[0 := 9]));
    var s1 := With(erased, Closing(0, [1]), Erasing(1, [0]));
    var closed := erased.(tables := erased.tables.(connections := [UP, DOWN]));
    var s2 := With(closed, Done(Linked(0)), Erasing(1, [0]));
    var s3 := With(closed.(tables := closed.tables.(credentials := map[])), Done(Linked(0)), Closing(1, [0]));
    assert Apply(s0, CLOSING[0]) == s1;
    assert Apply(s1, CLOSING[1]) == s2;
    assert Apply(s2, CLOSING[2]) == s3;
    assert Apply(s3, CLOSING[3]) == t;
    assert CLOSING[4..] == [];
    Step(CLOSING[3..], s3, t);
    Step(CLOSING[2..], s2, t);
    Step(CLOSING[1..], s1, t);
    Step(CLOSING, s0, t);
  }

  lemma Goes(s: State, more: seq<Event>, t: State)
    requires OAuthSafety.Reachable(s) && Run(s, more, t)
    ensures OAuthSafety.Reachable(t)
  {
    var events :| Run(INITIAL, events, s);
    RunThen(INITIAL, events, s, more, t);
  }

  lemma NoneLeft()
    ensures var s := With(NEITHER, Done(Linked(0)), Done(Linked(1)));
            OAuthSafety.Quiet(s) && forall id :: !IsConnected(s.store.tables, id)
  {
    assert NEITHER.tables.connections == [DOWN, DOWN];
  }

  lemma AllRun()
    ensures OAuthSafety.Reachable(With(NEITHER, Done(Linked(0)), Done(Linked(1))))
  {
    Authorizes();
    Return();
    FirstLinks();
    SecondLinks();
    Lists();
    Closes();
    Goes(AUTHORIZED, RETURNING, With(CONSUMED, Exchanging(0), Exchanging(1)));
    Goes(With(CONSUMED, Exchanging(0), Exchanging(1)), FIRST_LINKS, With(FIRST, Listing(0), Exchanging(1)));
    Goes(With(FIRST, Listing(0), Exchanging(1)), SECOND_LINKS, With(BOTH, Listing(0), Listing(1)));
    Goes(With(BOTH, Listing(0), Listing(1)), LISTING, With(BOTH, Erasing(0, [1]), Erasing(1, [0])));
    Goes(With(BOTH, Erasing(0, [1]), Erasing(1, [0])), CLOSING, With(NEITHER, Done(Linked(0)), Done(Linked(1))));
  }

  /** At most one CONNECTED connection cannot be strengthened to exactly one. */
  lemma CallbacksCanDisconnectEachOther() returns (s: State)
    ensures OAuthSafety.Reachable(s) && OAuthSafety.Quiet(s) && |s.processes| == 4
    ensures s.processes[2].pc == Done(Linked(0)) && s.processes[3].pc == Done(Linked(1))
    ensures forall id :: !IsConnected(s.store.tables, id)
  {
    s := With(NEITHER, Done(Linked(0)), Done(Linked(1)));
    AllRun();
    NoneLeft();
  }

  // ----- a disconnect that overlaps the callback -----

  const ONE := Tables([NEW], [Row(0, None)], map[])
  const USED := Tables([NEW], [Row(0, Some(0))], map[])

  /** One connection, whose state was consumed and whose code was exchanged. */
  const GRANTED := Store(USED, map[0 := 0], map[0 := 1], [0], [0], map[0 := Granted(9, [])], {}, {})

  function Three(s: Store, a: Pc, b: Pc): State {
    State(s, [At(Done(Authorized(0, 10))), At(a), At(b)])
  }

  const OVERLAPPING: seq<Event> :=
    [Authorize(true, 0, 10), Act(0, Chosen(0)), Act(0, Chosen(0)), CallBack(Some(0), true), Disconnect(0),
     Act(1, Chosen(0)), Act(1, Chosen(0)), Act(2, Chosen(0))]

  lemma Overlap()
    ensures Run(INITIAL, OVERLAPPING, Three(GRANTED, Storing(0, 9, []), Deleting(0)))
  {
    var t := Three(GRANTED, Storing(0, 9, []), Deleting(0));
    var begun := EMPTY.(tables := Tables([NEW], [], map[]), openers := map[0 := 0]);
    var issued := begun.(tables := ONE);
    var consumed := issued.(tables := USED, consumers := map[0 := 1], consumptions := [0]);
    var s1 := State(EMPTY, [At(Opening(10))]);
    var s2 := State(begun, [At(Issuing(0, 10))]);
    var s3 := State(issued, [At(Done(Authorized(0, 10)))]);
    var s4 := State(issued, s3.processes + [At(Consuming(0, true))]);
    var s5 := Three(issued, Consuming(0, true), Reading(0));
    var s6 := Three(consumed, Exchanging(0), Reading(0));
    var s7 := Three(GRANTED, Storing(0, 9, []), Reading(0));
    assert FindState(ONE.states, 0) == Some(0);
    assert Apply(INITIAL, OVERLAPPING[0]) == s1;
    assert Apply(s1, OVERLAPPING[1]) == s2;
    assert Apply(s2, OVERLAPPING[2]) == s3;
    assert Apply(s3, OVERLAPPING[3]) == s4;
    assert Apply(s4, OVERLAPPING[4]) == s5;
    assert Apply(s5, OVERLAPPING[5]) == s6;
    assert Apply(s6, OVERLAPPING[6]) == s7;
    assert Apply(s7, OVERLAPPING[7]) == t;
    assert OVERLAPPING[8..] == [];
    Step(OVERLAPPING[7..], s7, t);
    Step(OVERLAPPING[6..], s6, t);
    Step(OVERLAPPING[5..], s5, t);
    Step(OVERLAPPING[4..], s4, t);
    Step(OVERLAPPING[3..], s3, t);
    Step(OVERLAPPING[2..], s2, t);
    Step(OVERLAPPING[1..], s1, t);
    Step(OVERLAPPING, INITIAL, t);
  }

  lemma Alone()
    ensures Active([DOWN]) == [] && Without(Active([UP]), 0) == []
  {
    var ups, downs := [UP], [DOWN];
    assert ActiveUpTo(downs, 0) == [] && ActiveUpTo(ups, 0) == [];
    assert Place(ups, [], 0) == [0];
    assert Active(ups) == [0];
    assert [0][..0] == [];
    assert Without([], 0) == [];
  }

  const KEPT := GRANTED.(tables := USED.(connections := [DOWN], credentials := map[0 := 9]), stored := {0}, linked := {0})
  const BARE := KEPT.(tables := USED.(connections := [UP], credentials := map[]))

  const DELETES_FIRST: seq<Event> :=
    [Act(2, Chosen(0)), Act(1, Chosen(0)), Act(1, Chosen(0)), Act(2, Chosen(0)), Act(1, Chosen(0))]
  const DELETES_BETWEEN: seq<Event> :=
    [Act(1, Chosen(0)), Act(2, Chosen(0)), Act(2, Chosen(0)), Act(1, Chosen(0)), Act(1, Chosen(0))]

  lemma DeletesFirst()
    ensures Run(Three(GRANTED, Storing(0, 9, []), Deleting(0)), DELETES_FIRST, Three(KEPT, Done(Linked(0)), Done(Unlinked(0))))
  {
    var s0 := Three(GRANTED, Storing(0, 9, []), Deleting(0));
    var t := Three(KEPT, Done(Linked(0)), Done(Unlinked(0)));
    var s1 := Three(GRANTED, Storing(0, 9, []), Ending(0));
    var stored := GRANTED.(tables := USED.(credentials := map[0 := 9]), stored := {0});
    var s2 := Three(stored, Connecting(0, []), Ending(0));
    var s3 := Three(KEPT.(tables := KEPT.tables.(connections := [UP])), Listing(0), Ending(0));
    var s4 := Three(KEPT, Listing(0), Done(Unlinked(0)));
    Alone();
    assert Apply(s0, DELETES_FIRST[0]) == s1;
    assert Apply(s1, DELETES_FIRST[1]) == s2;
    assert Apply(s2, DELETES_FIRST[2]) == s3;
    assert Apply(s3, DELETES_FIRST[3]) == s4;
    assert Apply(s4, DELETES_FIRST[4]) == t;
    assert DELETES_FIRST[5..] == [];
    Step(DELETES_FIRST[4..], s4, t);
    Step(DELETES_FIRST[3..], s3, t);
    Step(DELETES_FIRST[2..], s2, t);
    Step(DELETES_FIRST[1..], s1, t);
    Step(DELETES_FIRST, s0, t);
  }

  lemma DeletesBetween()
    ensures Run(Three(GRANTED, Storing(0, 9, []), Deleting(0)), DELETES_BETWEEN, Three(BARE, Done(Linked(0)), Done(Unlinked(0))))
  {
    var s0 := Three(GRANTED, Storing(0, 9, []), Deleting(0));
    var t := Three(BARE, Done(Linked(0)), Done(Unlinked(0)));
    var stored := GRANTED.(tables := USED.(credentials := map[0 := 9]), stored := {0});
    var s1 := Three(stored, Connecting(0, []), Deleting(0));
    var s2 := Three(stored.(tables := USED), Connecting(0, []), Ending(0));
    var ended := USED.(connections := [Connections.Unlinked(NEW, 0)]);
    var s3 := Three(stored.(tables := ended), Connecting(0, []), Done(Unlinked(0)));
    var s4 := Three(BARE, Listing(0), Done(Unlinked(0)));
    Alone();
    assert Apply(s0, DELETES_BETWEEN[0]) == s1;
    assert Apply(s1, DELETES_BETWEEN[1]) == s2;
    assert Apply(s2, DELETES_BETWEEN[2]) == s3;
    assert Apply(s3, DELETES_BETWEEN[3]) == s4;
    assert Apply(s4, DELETES_BETWEEN[4]) == t;
    assert DELETES_BETWEEN[5..] == [];
    Step(DELETES_BETWEEN[4..], s4, t);
    Step(DELETES_BETWEEN[3..], s3, t);
    Step(DELETES_BETWEEN[2..], s2, t);
    Step(DELETES_BETWEEN[1..], s1, t);
    Step(DELETES_BETWEEN, s0, t);
  }

  lemma BothReturn()
    ensures OAuthSafety.Reachable(Three(KEPT, Done(Linked(0)), Done(Unlinked(0))))
    ensures OAuthSafety.Reachable(Three(BARE, Done(Linked(0)), Done(Unlinked(0))))
  {
    Overlap();
    DeletesFirst();
    DeletesBetween();
    var s := Three(GRANTED, Storing(0, 9, []), Deleting(0));
    Goes(s, DELETES_FIRST, Three(KEPT, Done(Linked(0)), Done(Unlinked(0))));
    Goes(s, DELETES_BETWEEN, Three(BARE, Done(Linked(0)), Done(Unlinked(0))));
  }

  /** A disconnect and a callback have both returned with success, and the connection is not
      CONNECTED but still has its credential. */
  lemma DisconnectCanLeaveCredential() returns (s: State)
    ensures OAuthSafety.Reachable(s) && OAuthSafety.Quiet(s) && |s.processes| == 3
    ensures s.processes[1].pc == Done(Linked(0)) && s.processes[2].pc == Done(Unlinked(0))
    ensures !IsConnected(s.store.tables, 0) && 0 in s.store.tables.credentials
  {
    s := Three(KEPT, Done(Linked(0)), Done(Unlinked(0)));
    BothReturn();
    assert KEPT.tables.connections == [DOWN];
  }

  /** The same two operations can leave the connection CONNECTED without a credential. */
  lemma DisconnectCanTakeCredentialOnly() returns (s: State)
    ensures OAuthSafety.Reachable(s) && OAuthSafety.Quiet(s) && |s.processes| == 3
    ensures s.processes[1].pc == Done(Linked(0)) && s.processes[2].pc == Done(Unlinked(0))
    ensures IsConnected(s.store.tables, 0) && 0 !in s.store.tables.credentials
  {
    s := Three(BARE, Done(Linked(0)), Done(Unlinked(0)));
    BothReturn();
    assert BARE.tables.connections == [UP];
  }
}
