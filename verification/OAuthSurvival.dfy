/** When a connection, once CONNECTED, stays so, and when its credential goes with it. */
module OAuthSurvival {
  import opened Values
  import opened Connections
  import opened OAuthProtocol
  import opened OAuthSafety

  // ----- who can disconnect a connection -----

  /** Connection d is among those that the callback of connection id took up to disconnect. */
  predicate TookUp(pc: Pc, id: nat, d: nat) {
    (pc.Erasing? || pc.Closing?) && Pursues(pc, id, d)
  }

  /** In its next step process who lists the active connections, for the callback of id, and d
      is one of them. */
  predicate ListsNow(s: State, e: Event, who: nat, id: nat, d: nat) {
    e.Act? && e.who == who && who < |s.processes| && s.processes[who].pc == Listing(id) && IsConnected(s.store.tables, d)
  }

  /** That happens somewhere in the run. */
  predicate Lists(s: State, events: seq<Event>, who: nat, id: nat, d: nat)
    requires CanRun(s, events)
    decreases |events|
  {
    events != [] && (ListsNow(s, events[0], who, id, d) || Lists(Apply(s, events[0]), events[1..], who, id, d))
  }

  lemma TakesUp(s: Store, me: nat, k: Process, c: Choice, t: Store, r: Process, id: nat, d: nat)
    requires Steps(s, me, k, c, t, r) && TookUp(r.pc, id, d) && !TookUp(k.pc, id, d)
    ensures k.pc == Listing(id) && IsConnected(s.tables, d)
  {
    assert Unfold(c);
    if k.pc.Listing? {
      ActiveMembers(s.tables.connections, |s.tables.connections|, d);
    }
  }

  /** Only a listing brings a connection among those to disconnect. */
  lemma {:induction false} TookUpListed(s: State, events: seq<Event>, t: State, who: nat, id: nat, d: nat)
    requires Run(s, events, t) && who < |t.processes| && TookUp(t.processes[who].pc, id, d)
    ensures Lists(s, events, who, id, d) || (who < |s.processes| && TookUp(s.processes[who].pc, id, d))
    decreases |events|
  {
    if events != [] {
      var e := events[0];
      var u := Apply(s, e);
      TookUpListed(u, events[1..], t, who, id, d);
      if who < |s.processes| && e.Act? && e.who == who && TookUp(u.processes[who].pc, id, d) && !TookUp(s.processes[who].pc, id, d) {
        ActSteps(s, who, e.choice);
        TakesUp(s.store, who, s.processes[who], e.choice, u.store, u.processes[who], id, d);
      }
    }
  }

  lemma LosesConnection(s: Store, me: nat, k: Process, c: Choice, t: Store, r: Process, d: nat)
    requires StoreOk(s) && ProcessOk(s, me, k) && Steps(s, me, k, c, t, r)
    requires IsConnected(s.tables, d) && !IsConnected(t.tables, d)
    ensures k.pc == Ending(d) || (k.pc.Closing? && k.pc.connection != d && k.pc.todo != [] && k.pc.todo[0] == d)
  {
    assert Unfold(c);
  }

  /** A CONNECTED connection is only lost to a disconnect of it, or to the callback of another
      connection that listed the active connections while this one was among them. */
  lemma LostOnlyToLister(events: seq<Event>, s: State, e: Event, d: nat)
    requires Run(INITIAL, events, s) && Possible(s, e)
    requires IsConnected(s.store.tables, d) && !IsConnected(Apply(s, e).store.tables, d)
    ensures e.Act?
    ensures var pc := s.processes[e.who].pc;
            pc == Ending(d) || (pc.Closing? && pc.connection != d && Lists(INITIAL, events, e.who, pc.connection, d))
  {
    InitialOk();
    RunOk(INITIAL, events, s);
    var k := s.processes[e.who];
    var t := Apply(s, e);
    ActSteps(s, e.who, e.choice);
    LosesConnection(s.store, e.who, k, e.choice, t.store, t.processes[e.who], d);
    if k.pc.Closing? {
      TookUpListed(INITIAL, events, s, e.who, k.pc.connection, d);
    }
  }

  // ----- what a run does to a connection -----

  /** In its next step the callback of another connection lists the active ones, d among them. */
  predicate ListsOther(s: State, e: Event, d: nat) {
    && e.Act? && e.who < |s.processes| && s.processes[e.who].pc.Listing?
    && s.processes[e.who].pc.connection != d && IsConnected(s.store.tables, d)
  }

  /** In its next step a disconnect of d finds it CONNECTED and writes its status. */
  predicate EndsNow(s: State, e: Event, d: nat) {
    e.Act? && e.who < |s.processes| && s.processes[e.who].pc == Ending(d) && IsConnected(s.store.tables, d)
  }

  /** In its next step a disconnect of d finds its credential and deletes it. */
  predicate DeletesNow(s: State, e: Event, d: nat) {
    e.Act? && e.who < |s.processes| && s.processes[e.who].pc == Deleting(d) && d in s.store.tables.credentials
  }

  predicate Listed(s: State, events: seq<Event>, d: nat)
    requires CanRun(s, events)
    decreases |events|
  {
    events != [] && (ListsOther(s, events[0], d) || Listed(Apply(s, events[0]), events[1..], d))
  }

  predicate Ends(s: State, events: seq<Event>, d: nat)
    requires CanRun(s, events)
    decreases |events|
  {
    events != [] && (EndsNow(s, events[0], d) || Ends(Apply(s, events[0]), events[1..], d))
  }

  predicate Deletes(s: State, events: seq<Event>, d: nat)
    requires CanRun(s, events)
    decreases |events|
  {
    events != [] && (DeletesNow(s, events[0], d) || Deletes(Apply(s, events[0]), events[1..], d))
  }

  /** The process has yet to write d's status, and before that to erase its credential. */
  predicate WillClose(pc: Pc, d: nat) {
    (pc.Erasing? || pc.Closing?) && d in pc.todo
  }

  predicate WillErase(pc: Pc, d: nat) {
    (pc.Erasing? && d in pc.todo) || (pc.Closing? && pc.todo != [] && d in pc.todo[1..])
  }

  ghost predicate SomeWillClose(ps: seq<Process>, d: nat) {
    exists i :: 0 <= i < |ps| && WillClose(ps[i].pc, d)
  }

  ghost predicate SomeWillErase(ps: seq<Process>, d: nat) {
    exists i :: 0 <= i < |ps| && WillErase(ps[i].pc, d)
  }

  /** The status of d is lost, or somebody is on the way to it; and so for its credential. */
  ghost predicate StatusDoomed(s: State, d: nat) {
    (d in s.store.linked && !IsConnected(s.store.tables, d)) || SomeWillClose(s.processes, d)
  }

  ghost predicate CredentialDoomed(s: State, d: nat) {
    (d in s.store.stored && d !in s.store.tables.credentials) || SomeWillErase(s.processes, d)
  }

  /** A worklist holds connections that were CONNECTED, and what has a credential has been
      CONNECTED too or its callback is about to do it. */
  ghost predicate SurvivalOk(s: State) {
    && StateOk(s)
    && (forall i, d :: 0 <= i < |s.processes| && WillClose(s.processes[i].pc, d) ==> d in s.store.linked)
    && (forall d :: d in s.store.stored && d !in s.store.linked ==>
          s.processes[s.store.consumers[d]].pc.Connecting? && s.processes[s.store.consumers[d]].pc.connection == d)
  }

  // ----- one step -----

  lemma StepDooms(s: Store, me: nat, k: Process, c: Choice, t: Store, r: Process, d: nat)
    requires StoreOk(s) && ProcessOk(s, me, k) && Steps(s, me, k, c, t, r)
    ensures d in s.linked && !IsConnected(s.tables, d) ==> !IsConnected(t.tables, d)
    ensures d in s.stored && d !in s.tables.credentials ==> d !in t.tables.credentials
    ensures WillClose(k.pc, d) ==> WillClose(r.pc, d) || !IsConnected(t.tables, d)
    ensures WillErase(k.pc, d) ==> WillErase(r.pc, d) || d !in t.tables.credentials
  {
    assert Unfold(c);
  }

  lemma ListingDooms(s: Store, me: nat, k: Process, c: Choice, t: Store, r: Process, d: nat)
    requires Steps(s, me, k, c, t, r) && k.pc.Listing? && k.pc.connection != d && IsConnected(s.tables, d)
    ensures WillClose(r.pc, d) && WillErase(r.pc, d)
  {
    assert Unfold(c);
    ActiveMembers(s.tables.connections, |s.tables.connections|, d);
  }

  lemma WriteDooms(s: Store, me: nat, k: Process, c: Choice, t: Store, r: Process, d: nat)
    requires Steps(s, me, k, c, t, r)
    ensures k.pc == Ending(d) ==> !IsConnected(t.tables, d)
    ensures k.pc == Deleting(d) ==> d !in t.tables.credentials
  {
    assert Unfold(c);
  }

  /** Nothing else dooms. */
  lemma StepSpares(s: Store, me: nat, k: Process, c: Choice, t: Store, r: Process, d: nat)
    requires StoreOk(s) && ProcessOk(s, me, k) && Steps(s, me, k, c, t, r)
    ensures d in t.linked && !IsConnected(t.tables, d) ==>
              (d in s.linked && !IsConnected(s.tables, d)) || WillClose(k.pc, d) || (k.pc == Ending(d) && IsConnected(s.tables, d))
    ensures d in t.stored && d !in t.tables.credentials ==>
              (d in s.stored && d !in s.tables.credentials) || WillErase(k.pc, d) || (k.pc == Deleting(d) && d in s.tables.credentials)
    ensures WillClose(r.pc, d) ==> WillClose(k.pc, d) || (k.pc.Listing? && k.pc.connection != d && IsConnected(s.tables, d))
    ensures WillErase(r.pc, d) ==> WillErase(k.pc, d) || (k.pc.Listing? && k.pc.connection != d && IsConnected(s.tables, d))
  {
    assert Unfold(c);
    if k.pc.Listing? {
      ActiveMembers(s.tables.connections, |s.tables.connections|, d);
    }
  }

  lemma StepLinks(s: Store, me: nat, k: Process, c: Choice, t: Store, r: Process, d: nat)
    requires StoreOk(s) && ProcessOk(s, me, k) && Steps(s, me, k, c, t, r)
    ensures d in t.stored && d !in s.stored ==> Won(t.consumers, d, me) && r.pc.Connecting? && r.pc.connection == d
    ensures k.pc.Connecting? && k.pc.connection == d && d < |s.tables.connections| ==> d in t.linked
    ensures k.pc.Connecting? && k.pc.connection == d ==> !r.pc.Connecting?
  {
    assert Unfold(c);
  }

  lemma ActSurvival(s: State, me: nat, c: Choice)
    requires SurvivalOk(s) && Possible(s, Act(me, c))
    ensures SurvivalOk(Apply(s, Act(me, c)))
  {
    var t := Apply(s, Act(me, c));
    ActOk(s, me, c);
    ActSteps(s, me, c);
    forall i, d | 0 <= i < |t.processes| && WillClose(t.processes[i].pc, d)
      ensures d in t.store.linked
    {
      StepSpares(s.store, me, s.processes[me], c, t.store, t.processes[me], d);
    }
    forall d | d in t.store.stored && d !in t.store.linked
      ensures t.processes[t.store.consumers[d]].pc.Connecting? && t.processes[t.store.consumers[d]].pc.connection == d
    {
      StepLinks(s.store, me, s.processes[me], c, t.store, t.processes[me], d);
    }
  }

  lemma EventSurvival(s: State, e: Event)
    requires SurvivalOk(s) && Possible(s, e)
    ensures SurvivalOk(Apply(s, e))
  {
    if e.Act? {
      ActSurvival(s, e.who, e.choice);
    } else {
      EventOk(s, e);
      assert forall i :: 0 <= i < |s.processes| ==> Apply(s, e).processes[i].pc == s.processes[i].pc;
    }
  }

  /** A step dooms the status of a connection exactly when it lists it for another one or ends it. */
  lemma ActDoomsStatus(s: State, me: nat, c: Choice, d: nat)
    requires SurvivalOk(s) && Possible(s, Act(me, c))
    ensures StatusDoomed(Apply(s, Act(me, c)), d) <==>
              StatusDoomed(s, d) || ListsOther(s, Act(me, c), d) || EndsNow(s, Act(me, c), d)
  {
    var t := Apply(s, Act(me, c));
    var k, r := s.processes[me], t.processes[me];
    ActOk(s, me, c);
    ActSteps(s, me, c);
    StepDooms(s.store, me, k, c, t.store, r, d);
    StepSpares(s.store, me, k, c, t.store, r, d);
    WriteDooms(s.store, me, k, c, t.store, r, d);
    if ListsOther(s, Act(me, c), d) {
      ListingDooms(s.store, me, k, c, t.store, r, d);
    } else if SomeWillClose(s.processes, d) {
      var i :| 0 <= i < |s.processes| && WillClose(s.processes[i].pc, d);
      assert WillClose(t.processes[i].pc, d) || !IsConnected(t.store.tables, d);
    }
  }

  /** A step dooms a credential exactly when it lists its connection for another one or deletes it. */
  lemma ActDoomsCredential(s: State, me: nat, c: Choice, d: nat)
    requires SurvivalOk(s) && Possible(s, Act(me, c))
    ensures CredentialDoomed(Apply(s, Act(me, c)), d) <==>
              CredentialDoomed(s, d) || ListsOther(s, Act(me, c), d) || DeletesNow(s, Act(me, c), d)
  {
    var t := Apply(s, Act(me, c));
    var k, r := s.processes[me], t.processes[me];
    ActOk(s, me, c);
    ActSteps(s, me, c);
    StepDooms(s.store, me, k, c, t.store, r, d);
    StepSpares(s.store, me, k, c, t.store, r, d);
    WriteDooms(s.store, me, k, c, t.store, r, d);
    if ListsOther(s, Act(me, c), d) {
      ListingDooms(s.store, me, k, c, t.store, r, d);
    } else if SomeWillErase(s.processes, d) {
      var i :| 0 <= i < |s.processes| && WillErase(s.processes[i].pc, d);
      assert WillErase(t.processes[i].pc, d) || d !in t.store.tables.credentials;
    }
  }

  lemma EventDooms(s: State, e: Event, d: nat)
    requires SurvivalOk(s) && Possible(s, e)
    ensures StatusDoomed(Apply(s, e), d) <==> StatusDoomed(s, d) || ListsOther(s, e, d) || EndsNow(s, e, d)
    ensures CredentialDoomed(Apply(s, e), d) <==> CredentialDoomed(s, d) || ListsOther(s, e, d) || DeletesNow(s, e, d)
  {
    if e.Act? {
      ActDoomsStatus(s, e.who, e.choice, d);
      ActDoomsCredential(s, e.who, e.choice, d);
    } else {
      assert forall i :: 0 <= i < |s.processes| ==> Apply(s, e).processes[i].pc == s.processes[i].pc;
    }
  }

  // ----- whole runs -----

  lemma {:induction false} RunDooms(s: State, events: seq<Event>, t: State, d: nat)
    requires SurvivalOk(s) && Run(s, events, t)
    ensures SurvivalOk(t)
    ensures StatusDoomed(t, d) <==> StatusDoomed(s, d) || Listed(s, events, d) || Ends(s, events, d)
    ensures CredentialDoomed(t, d) <==> CredentialDoomed(s, d) || Listed(s, events, d) || Deletes(s, events, d)
    decreases |events|
  {
    if events != [] {
      EventSurvival(s, events[0]);
      EventDooms(s, events[0], d);
      RunDooms(Apply(s, events[0]), events[1..], t, d);
    }
  }

  /** A connection that a callback has made CONNECTED still is, once every operation has
      returned, exactly when no other callback listed it and no disconnect of it ended while it
      was CONNECTED. */
  lemma LinkedSurvivesIff(events: seq<Event>, s: State, d: nat)
    requires Run(INITIAL, events, s) && Quiet(s) && d in s.store.linked
    ensures IsConnected(s.store.tables, d) <==> !Listed(INITIAL, events, d) && !Ends(INITIAL, events, d)
  {
    InitialOk();
    RunDooms(INITIAL, events, s, d);
  }

  /** And it still has its credential exactly when no other callback listed it and no disconnect
      of it deleted one. */
  lemma CredentialSurvivesIff(events: seq<Event>, s: State, d: nat)
    requires Run(INITIAL, events, s) && Quiet(s) && d in s.store.linked
    ensures d in s.store.tables.credentials <==> !Listed(INITIAL, events, d) && !Deletes(INITIAL, events, d)
  {
    InitialOk();
    RunDooms(INITIAL, events, s, d);
  }

  /** Once every operation has returned, a connection has a credential exactly when it is
      CONNECTED, in exactly the runs in which another callback listed it, or a disconnect met its
      status CONNECTED if and only if one met its credential. */
  lemma CredentialMatchesIff(events: seq<Event>, s: State, d: nat)
    requires Run(INITIAL, events, s) && Quiet(s)
    ensures (d in s.store.tables.credentials <==> IsConnected(s.store.tables, d)) <==>
              Listed(INITIAL, events, d) || (Ends(INITIAL, events, d) <==> Deletes(INITIAL, events, d))
  {
    InitialOk();
    RunDooms(INITIAL, events, s, d);
  }

  // ----- disconnects that come too early -----

  /** In its next step a disconnect deletes the credential of d before d was ever CONNECTED. */
  predicate EarlyNow(s: State, e: Event, d: nat) {
    e.Act? && e.who < |s.processes| && s.processes[e.who].pc == Deleting(d) && d !in s.store.linked
  }

  predicate Early(s: State, events: seq<Event>, d: nat)
    requires CanRun(s, events)
    decreases |events|
  {
    events != [] && (EarlyNow(s, events[0], d) || Early(Apply(s, events[0]), events[1..], d))
  }

  /** The process has deleted the credential of d, and writes the status of d next. */
  predicate Removing(pc: Pc, d: nat) {
    match pc
    case Ending(x) => x == d
    case Closing(_, todo) => todo != [] && todo[0] == d
    case _ => false
  }

  predicate MakesConnected(pc: Pc, d: nat) {
    pc.Connecting? && pc.connection == d
  }

  predicate ProcessMatches(s: Store, pc: Pc, d: nat) {
    && (Removing(pc, d) ==> d in s.linked && d !in s.tables.credentials)
    && (MakesConnected(pc, d) ==> d in s.tables.credentials)
  }

  /** Credential and status differ only between the two writes of a callback or a disconnect. */
  ghost predicate MatchOk(s: State, d: nat) {
    && SurvivalOk(s)
    && (forall i :: 0 <= i < |s.processes| ==> ProcessMatches(s.store, s.processes[i].pc, d))
    && (d in s.store.tables.credentials && d in s.store.linked ==> IsConnected(s.store.tables, d))
    && (IsConnected(s.store.tables, d) && d !in s.store.tables.credentials ==>
          exists i :: 0 <= i < |s.processes| && Removing(s.processes[i].pc, d))
  }

  lemma StepMatches(s: Store, me: nat, k: Process, c: Choice, t: Store, r: Process, d: nat)
    requires StoreOk(s) && ProcessOk(s, me, k) && Steps(s, me, k, c, t, r)
    requires ProcessMatches(s, k.pc, d) && (k.pc == Deleting(d) ==> d in s.linked) && (WillClose(k.pc, d) ==> d in s.linked)
    requires d in s.tables.credentials && d in s.linked ==> IsConnected(s.tables, d)
    ensures ProcessMatches(t, r.pc, d)
    ensures d in s.linked ==> d in t.linked && (d !in s.tables.credentials ==> d !in t.tables.credentials)
    ensures d !in s.linked && d in s.tables.credentials ==> d in t.tables.credentials
    ensures d in t.tables.credentials && d in t.linked ==> IsConnected(t.tables, d)
    ensures IsConnected(t.tables, d) && d !in t.tables.credentials ==>
              Removing(r.pc, d) || (IsConnected(s.tables, d) && d !in s.tables.credentials && !Removing(k.pc, d))
  {
    assert Unfold(c);
  }

  lemma ActMatches(s: State, me: nat, c: Choice, d: nat)
    requires MatchOk(s, d) && Possible(s, Act(me, c)) && !EarlyNow(s, Act(me, c), d)
    ensures MatchOk(Apply(s, Act(me, c)), d)
  {
    var t := Apply(s, Act(me, c));
    var k, r := s.processes[me], t.processes[me];
    ActSurvival(s, me, c);
    ActSteps(s, me, c);
    StepMatches(s.store, me, k, c, t.store, r, d);
    forall i | 0 <= i < |t.processes|
      ensures ProcessMatches(t.store, t.processes[i].pc, d)
    {
      assert ProcessMatches(s.store, s.processes[i].pc, d) && ProcessOk(s.store, i, s.processes[i]);
    }
    if IsConnected(t.store.tables, d) && d !in t.store.tables.credentials && !Removing(r.pc, d) {
      var i :| 0 <= i < |s.processes| && Removing(s.processes[i].pc, d);
      assert t.processes[i] == s.processes[i];
    }
  }

  lemma EventMatches(s: State, e: Event, d: nat)
    requires MatchOk(s, d) && Possible(s, e) && !EarlyNow(s, e, d)
    ensures MatchOk(Apply(s, e), d)
  {
    if e.Act? {
      ActMatches(s, e.who, e.choice, d);
    } else {
      EventSurvival(s, e);
      assert forall i :: 0 <= i < |s.processes| ==> Apply(s, e).processes[i].pc == s.processes[i].pc;
    }
  }

  lemma {:induction false} RunMatches(s: State, events: seq<Event>, t: State, d: nat)
    requires MatchOk(s, d) && Run(s, events, t) && !Early(s, events, d)
    ensures MatchOk(t, d)
    decreases |events|
  {
    if events != [] {
      EventMatches(s, events[0], d);
      RunMatches(Apply(s, events[0]), events[1..], t, d);
    }
  }

  /** However the operations overlap: if no disconnect of d deletes its credential before d was
      CONNECTED, then once every operation has returned d has a credential exactly when it is
      CONNECTED. */
  lemma CredentialIffConnectedUnlessEarly(events: seq<Event>, s: State, d: nat)
    requires Run(INITIAL, events, s) && Quiet(s) && !Early(INITIAL, events, d)
    ensures d in s.store.tables.credentials <==> IsConnected(s.store.tables, d)
  {
    InitialOk();
    RunMatches(INITIAL, events, s, d);
  }
}
