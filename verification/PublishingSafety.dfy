/** What holds in every reachable state, even when any repository call may raise before or
    after its effect. */
module PublishingSafety {
  import opened Values
  import opened Sequences
  import opened PublishingErrors
  import opened Publications
  import opened PublishingProtocol

  // ----- rows -----

  /** The columns that go with each status. */
  predicate RowOk(r: Row) {
    && (r.error.Some? <==> r.status.Failed?)
    && (r.externalId.Some? <==> r.status.Published?) && (r.externalUrl.Some? <==> r.status.Published?)
    && (r.publishedAt.Some? <==> r.status.Published?)
    && (r.status.Published? ==> r.externalId != Some("") && r.externalUrl != Some(""))
    && (r.status.Queued? ==> r.queuedAt.Some? && r.startedAt.None?)
    && (r.status.Pending? ==> r.queuedAt.None? && r.startedAt.None?)
    && (r.status.Publishing? || r.status.Published? ==> r.startedAt.Some?)
    && (r.queuedAt.Some? <==> r.taskId.Some?)
    && (r.scheduledAt.Some? ==> r.queuedAt.Some? && r.queuedAt.value < r.scheduledAt.value)
  }

  /** What may happen to a row: its identity is fixed, its rank never falls, a changed row
      has moved up, and what was queued keeps its task and schedule. */
  predicate RowAdvances(r: Row, t: Row) {
    t == r ||
    (&& Rank(r.status) < Rank(t.status)
     && t.id == r.id && t.asset == r.asset && t.execution == r.execution && t.provider == r.provider && t.title == r.title
     && (!r.status.Pending? ==> t.queuedAt == r.queuedAt && t.scheduledAt == r.scheduledAt && t.taskId == r.taskId))
  }

  ghost predicate RowsAdvance(rows: Table, rows2: Table) {
    |rows| <= |rows2| && forall i :: 0 <= i < |rows| ==> RowAdvances(rows[i], rows2[i])
  }

  /** A transition that some process makes. */
  predicate Legal(from: Status, to: Status, w: Write) {
    match w
    case Start(_) => (from.Pending? || from.Queued?) && to.Publishing?
    case Enqueue(eta, at, _) => from.Pending? && to.Queued? && (eta.Some? ==> at < eta.value)
    case Failure(_) => (from.Queued? || from.Publishing?) && to.Failed?
    case Success(id, url, _) => from.Publishing? && to.Published? && id != "" && url != ""
  }

  lemma UpdateOk(r: Row, to: Status, w: Write)
    requires RowOk(r) && Legal(r.status, to, w)
    ensures RowOk(Update(r, to, w)) && RowAdvances(r, Update(r, to, w))
    ensures KeyOf(Update(r, to, w)) == KeyOf(r) && Update(r, to, w).id == r.id && Update(r, to, w).status == to
  {
  }

  // ----- the store -----

  ghost predicate TableOk(rows: Table) {
    && (forall i :: 0 <= i < |rows| ==> RowOk(rows[i]))
    && Numbered(rows) && UniqueKeys(rows)
  }

  /** me moved publication id with the winning transition. */
  predicate Won(winners: map<nat, nat>, id: nat, me: nat) {
    id in winners && winners[id] == me
  }

  ghost predicate WinnersOk(winners: map<nat, nat>, rows: Table, rank: nat) {
    forall id :: id in winners ==> id < |rows| && rank <= Rank(rows[id].status)
  }

  ghost predicate UploadsOk(s: Store) {
    Distinct(s.uploads) && forall i :: 0 <= i < |s.uploads| ==> s.uploads[i] in s.claims
  }

  ghost predicate Sent(s: Store, id: nat) {
    exists i :: 0 <= i < |s.dispatched| && s.dispatched[i].publication == id
  }

  /** The message's row is queued or further, with its task and schedule. */
  predicate MessageOk(s: Store, m: Delivery) {
    && m.publication < |s.rows| && m.publication in s.queuers
    && !s.rows[m.publication].status.Pending?
    && s.rows[m.publication].taskId == Some(m.task) && s.rows[m.publication].scheduledAt == m.eta
  }

  ghost predicate BrokerOk(s: Store) {
    && (forall i :: 0 <= i < |s.dispatched| ==> MessageOk(s, s.dispatched[i]))
    && (forall i, j :: 0 <= i < j < |s.dispatched| ==> s.dispatched[i].publication != s.dispatched[j].publication)
    && (forall m :: m in s.broker ==> m in s.dispatched)
  }

  ghost predicate StoreOk(s: Store) {
    && TableOk(s.rows)
    && WinnersOk(s.claims, s.rows, 2) && WinnersOk(s.queuers, s.rows, 1)
    && (forall i :: 0 <= i < |s.rows| && s.rows[i].status.Publishing? ==> i in s.claims)
    && (forall i :: 0 <= i < |s.rows| && s.rows[i].status.Published? ==> i in s.uploads)
    && UploadsOk(s) && BrokerOk(s)
  }

  // ----- processes -----

  ghost predicate ProcessOk(s: Store, me: nat, k: Process) {
    && Sensible(k)
    && (k.kind.Worker? ==> Sent(s, k.target))
    && (k.eta.Some? ==> k.since < k.eta.value)
    && match k.pc
       case Loading(row) => Won(s.claims, k.target, me) && k.target !in s.uploads
       case Calling(row, _) => Won(s.claims, k.target, me) && k.target !in s.uploads
       case Failing(_) => Won(s.claims, k.target, me)
       case Completing(id, url) => Won(s.claims, k.target, me) && k.target in s.uploads && id != "" && url != ""
       case Dispatching(row, task) =>
         && Won(s.queuers, k.target, me) && !Sent(s, k.target)
         && k.target < |s.rows| && s.rows[k.target].taskId == Some(task) && s.rows[k.target].scheduledAt == k.eta
       case Unqueueing => Won(s.queuers, k.target, me)
       case _ => true
  }

  ghost predicate StateOk(s: State) {
    && StoreOk(s.store)
    && forall i :: 0 <= i < |s.processes| ==> ProcessOk(s.store, i, s.processes[i])
  }

  // ----- what one process may do to the store -----

  ghost predicate WinnersAdvance(w: map<nat, nat>, w2: map<nat, nat>, me: nat) {
    && (forall id :: id in w ==> Won(w2, id, w[id]))
    && (forall id :: id in w2 && id !in w ==> w2[id] == me)
  }

  ghost predicate Advances(s: Store, t: Store, me: nat) {
    && RowsAdvance(s.rows, t.rows)
    && WinnersAdvance(s.claims, t.claims, me) && WinnersAdvance(s.queuers, t.queuers, me)
    && s.uploads <= t.uploads && (forall i :: |s.uploads| <= i < |t.uploads| ==> Won(s.claims, t.uploads[i], me))
    && s.dispatched <= t.dispatched
    && (forall i :: |s.dispatched| <= i < |t.dispatched| ==> Won(s.queuers, t.dispatched[i].publication, me))
  }

  lemma SentAdvances(s: Store, t: Store, id: nat)
    requires Sent(s, id) && s.dispatched <= t.dispatched
    ensures Sent(t, id)
  {
    var i :| 0 <= i < |s.dispatched| && s.dispatched[i].publication == id;
    assert t.dispatched[i] == s.dispatched[i];
  }

  /** The steps of one process leave what every other process relies on. */
  lemma OthersOk(s: Store, t: Store, me: nat, other: nat, k: Process)
    requires ProcessOk(s, other, k) && Advances(s, t, me) && other != me && WinnersOk(s.queuers, s.rows, 1)
    ensures ProcessOk(t, other, k)
  {
    if k.kind.Worker? {
      SentAdvances(s, t, k.target);
    }
    match k.pc
    case Loading(_) => NotUploaded(s, t, me, other, k.target);
    case Calling(_, _) => NotUploaded(s, t, me, other, k.target);
    case Dispatching(_, _) =>
      NotSent(s, t, me, other, k.target);
      assert RowAdvances(s.rows[k.target], t.rows[k.target]);
    case _ =>
  }

  lemma NotUploaded(s: Store, t: Store, me: nat, other: nat, id: nat)
    requires Won(s.claims, id, other) && other != me && id !in s.uploads && Advances(s, t, me)
    ensures id !in t.uploads
  {
    forall i | 0 <= i < |t.uploads|
      ensures t.uploads[i] != id
    {
      if i < |s.uploads| {
        assert t.uploads[i] == s.uploads[i];
      } else {
        assert Won(s.claims, t.uploads[i], me);
      }
    }
  }

  lemma NotSent(s: Store, t: Store, me: nat, other: nat, id: nat)
    requires Won(s.queuers, id, other) && other != me && !Sent(s, id) && Advances(s, t, me)
    ensures !Sent(t, id)
  {
    forall i | 0 <= i < |t.dispatched|
      ensures t.dispatched[i].publication != id
    {
      if i < |s.dispatched| {
        assert t.dispatched[i] == s.dispatched[i];
      } else {
        assert Won(s.queuers, t.dispatched[i].publication, me);
      }
    }
  }

  // ----- the effect of each call -----

  lemma RowsAdvanceOk(s: Store, rows2: Table)
    requires StoreOk(s) && RowsAdvance(s.rows, rows2)
    ensures WinnersOk(s.claims, rows2, 2) && WinnersOk(s.queuers, rows2, 1)
    ensures BrokerOk(s.(rows := rows2))
  {
    forall id | id in s.claims
      ensures id < |rows2| && 2 <= Rank(rows2[id].status)
    {
      assert RowAdvances(s.rows[id], rows2[id]);
    }
    forall id | id in s.queuers
      ensures id < |rows2| && 1 <= Rank(rows2[id].status)
    {
      assert RowAdvances(s.rows[id], rows2[id]);
    }
    var t := s.(rows := rows2);
    forall i | 0 <= i < |t.dispatched|
      ensures MessageOk(t, t.dispatched[i])
    {
      assert MessageOk(s, s.dispatched[i]);
      var id := s.dispatched[i].publication;
      assert RowAdvances(s.rows[id], rows2[id]);
    }
  }

  lemma CasTable(rows: Table, id: nat, from: Status, to: Status, w: Write)
    requires TableOk(rows) && Legal(from, to, w)
    ensures TableOk(CasRows(rows, id, from, to, w)) && RowsAdvance(rows, CasRows(rows, id, from, to, w))
  {
    if Hits(rows, id, from) {
      UpdateOk(rows[id], to, w);
      var rows2 := CasRows(rows, id, from, to, w);
      forall i, j | 0 <= i < j < |rows2|
        ensures KeyOf(rows2[i]).None? || KeyOf(rows2[i]) != KeyOf(rows2[j])
      {
        assert KeyOf(rows2[i]) == KeyOf(rows[i]) && KeyOf(rows2[j]) == KeyOf(rows[j]);
      }
    }
  }

  lemma TransitionOk(s: Store, me: nat, id: nat, from: Status, to: Status, w: Write)
    requires StoreOk(s) && Legal(from, to, w) && (to.Published? ==> id in s.uploads)
    ensures var t := TransitionStore(s, me, id, from, to, w); StoreOk(t) && Advances(s, t, me)
  {
    if Hits(s.rows, id, from) {
      CasTable(s.rows, id, from, to, w);
      var u := s.(rows := CasRows(s.rows, id, from, to, w));
      RowsAdvanceOk(s, u.rows);
      assert u.rows[id].status == to;
      assert forall i :: 0 <= i < |u.rows| && i != id ==> u.rows[i] == s.rows[i];
      WinnerOk(s, u, me, id, to);
    }
  }

  /** Recording the winner of a transition that has been made. */
  lemma WinnerOk(s: Store, u: Store, me: nat, id: nat, to: Status)
    requires StoreOk(s) && u == s.(rows := u.rows) && |u.rows| == |s.rows| && id < |s.rows| && u.rows[id].status == to
    requires Rank(s.rows[id].status) < Rank(to) && (to.Published? ==> id in s.uploads)
    requires forall i :: 0 <= i < |u.rows| && i != id ==> u.rows[i] == s.rows[i]
    requires TableOk(u.rows) && WinnersOk(s.claims, u.rows, 2) && WinnersOk(s.queuers, u.rows, 1) && BrokerOk(u)
    requires RowsAdvance(s.rows, u.rows)
    ensures var t := u.(claims := if to.Publishing? then s.claims[id := me] else s.claims,
                        queuers := if to.Queued? then s.queuers[id := me] else s.queuers);
            StoreOk(t) && Advances(s, t, me)
  {
    var t := u.(claims := if to.Publishing? then s.claims[id := me] else s.claims,
                queuers := if to.Queued? then s.queuers[id := me] else s.queuers);
    NewWinner(s.claims, s.rows, u.rows, 2, id, me, to.Publishing?);
    NewWinner(s.queuers, s.rows, u.rows, 1, id, me, to.Queued?);
    BrokerKeeps(u, t);
  }

  lemma NewWinner(w: map<nat, nat>, rows: Table, rows2: Table, rank: nat, id: nat, me: nat, wins: bool)
    requires WinnersOk(w, rows, rank) && WinnersOk(w, rows2, rank) && id < |rows| && id < |rows2|
    requires wins ==> Rank(rows[id].status) < rank <= Rank(rows2[id].status)
    ensures var w2 := if wins then w[id := me] else w; WinnersAdvance(w, w2, me) && WinnersOk(w2, rows2, rank)
  {
  }

  lemma BrokerKeeps(u: Store, t: Store)
    requires BrokerOk(u) && t.rows == u.rows && t.broker == u.broker && t.dispatched == u.dispatched
    requires forall id :: id in u.queuers ==> id in t.queuers
    ensures BrokerOk(t)
  {
    forall i | 0 <= i < |t.dispatched|
      ensures MessageOk(t, t.dispatched[i])
    {
      assert MessageOk(u, t.dispatched[i]);
    }
  }

  lemma AppendOk(s: Store, row: Row)
    requires StoreOk(s) && RowOk(row) && row.status.Pending? && row.id == |s.rows| && UniqueKeys(s.rows + [row])
    ensures var t := s.(rows := s.rows + [row]); StoreOk(t) && forall me :: Advances(s, t, me)
  {
    var t := s.(rows := s.rows + [row]);
    RowsAdvanceOk(s, t.rows);
  }

  lemma InsertOk(s: Store, key: Key, title: string)
    requires StoreOk(s)
    ensures var t := s.(rows := InsertRows(s.rows, key, title)); StoreOk(t) && forall me :: Advances(s, t, me)
  {
    if FindKey(s.rows, key).None? {
      InsertKeepsUnique(s.rows, key, title);
      AppendOk(s, KeyedRow(s.rows, key, title));
    }
  }

  lemma UploadOk(s: Store, me: nat, id: nat, h: Handover)
    requires StoreOk(s) && Won(s.claims, id, me) && id !in s.uploads
    ensures var t := s.(uploads := s.uploads + [id], handovers := s.handovers[id := h]); StoreOk(t) && Advances(s, t, me)
  {
    var t := s.(uploads := s.uploads + [id], handovers := s.handovers[id := h]);
    assert forall i :: 0 <= i < |t.dispatched| ==> MessageOk(s, t.dispatched[i]);
  }

  lemma SendOk(s: Store, me: nat, m: Delivery)
    requires StoreOk(s) && MessageOk(s, m) && Won(s.queuers, m.publication, me) && !Sent(s, m.publication)
    ensures var t := s.(broker := s.broker + multiset{m}, dispatched := s.dispatched + [m]); StoreOk(t) && Advances(s, t, me)
  {
    SendBrokerOk(s, m);
  }

  lemma SendBrokerOk(s: Store, m: Delivery)
    requires BrokerOk(s) && MessageOk(s, m) && !Sent(s, m.publication)
    ensures BrokerOk(s.(broker := s.broker + multiset{m}, dispatched := s.dispatched + [m]))
  {
    var t := s.(broker := s.broker + multiset{m}, dispatched := s.dispatched + [m]);
    forall i | 0 <= i < |t.dispatched|
      ensures MessageOk(t, t.dispatched[i])
    {
      assert MessageOk(s, t.dispatched[i]);
    }
    forall x | x in t.broker
      ensures x in t.dispatched
    {
      if x == m {
        assert t.dispatched[|s.dispatched|] == m;
      } else {
        assert x in s.dispatched;
      }
    }
  }

  lemma SameOk(s: Store, me: nat)
    ensures Advances(s, s, me)
  {
  }

  /** The calls that keep the store in order. */
  ghost predicate Allowed(s: Store, me: nat, call: Call) {
    match call
    case Transition(id, from, to, w) => Legal(from, to, w) && (to.Published? ==> id in s.uploads)
    case Upload(id, _, _, _) => Won(s.claims, id, me) && id !in s.uploads
    case Send(m) => MessageOk(s, m) && Won(s.queuers, m.publication, me) && !Sent(s, m.publication)
    case _ => true
  }

  lemma CallAllowed(s: Store, me: nat, k: Process, c: Choice)
    requires WinnersOk(s.queuers, s.rows, 1) && ProcessOk(s, me, k)
    ensures Allowed(s, me, CallOf(k, c))
  {
  }

  lemma EffectOk(s: Store, me: nat, call: Call, c: Choice)
    requires StoreOk(s) && Allowed(s, me, call)
    ensures var t := Effect(s, me, call, c); StoreOk(t) && Advances(s, t, me)
  {
    SameOk(s, me);
    match call
    case Transition(id, from, to, w) => TransitionOk(s, me, id, from, to, w);
    case Insert(key, title) => InsertOk(s, key, title);
    case Upload(id, asset, title, media) => UploadOk(s, me, id, Handover(asset, title, media, c.answer));
    case Send(m) => SendOk(s, me, m);
    case _ =>
  }

  /** Always true: it only marks the choices at which Steps is to be instantiated, so that a
      step is looked into where a proof asserts Unfold and is otherwise only a name. */
  ghost predicate Unfold(c: Choice) {
    true
  }

  /** One call of process k leaves the store as t and the process as r. */
  ghost predicate Steps(s: Store, me: nat, k: Process, c: Choice, t: Store, r: Process)
    requires Sensible(k)
  {
    forall d: Choice {:trigger Unfold(d)} :: Unfold(d) && d == c ==>
      t == StoreAfter(s, me, CallOf(k, d), d) && r == Resume(k, ReplyOf(s, CallOf(k, d), d), d)
  }

  lemma ActSteps(s: State, me: nat, c: Choice)
    requires Possible(s, Act(me, c))
    ensures Steps(s.store, me, s.processes[me], c, Apply(s, Act(me, c)).store, Apply(s, Act(me, c)).processes[me])
  {
  }

  /** Every call of a process keeps the store in order and takes nothing from the others. */
  lemma CallOk(s: Store, me: nat, k: Process, c: Choice, t: Store, r: Process)
    requires StoreOk(s) && ProcessOk(s, me, k) && Steps(s, me, k, c, t, r)
    ensures StoreOk(t) && Advances(s, t, me)
  {
    assert Unfold(c);
    SameOk(s, me);
    CallAllowed(s, me, k, c);
    EffectOk(s, me, CallOf(k, c), c);
  }

  /** What every program counter needs. */
  ghost predicate Background(s: Store, k: Process) {
    Sensible(k) && (k.kind.Worker? ==> Sent(s, k.target)) && (k.eta.Some? ==> k.since < k.eta.value)
  }

  lemma KeptBackground(s: Store, t: Store, me: nat, k: Process)
    requires ProcessOk(s, me, k) && Advances(s, t, me)
    ensures Background(t, k)
  {
    if k.kind.Worker? {
      SentAdvances(s, t, k.target);
    }
  }

  /** A process that holds no claim and no message to send. */
  predicate Plain(k: Process) {
    match k.pc
    case Loading(_) | Calling(_, _) | Failing(_) | Completing(_, _) | Dispatching(_, _) | Unqueueing => false
    case _ => true
  }

  lemma PlainOk(s: Store, me: nat, k: Process)
    requires Plain(k) && Background(s, k)
    ensures ProcessOk(s, me, k)
  {
  }

  lemma ClaimOk(s: Store, me: nat, k: Process, c: Choice, t: Store, r: Process)
    requires WinnersOk(s.claims, s.rows, 2) && UploadsOk(s) && Background(t, k)
    requires k.pc.Claiming? && Steps(s, me, k, c, t, r)
    ensures ProcessOk(t, me, r)
  {
    assert Unfold(c);
    if Hits(s.rows, k.target, if k.kind.Worker? then Queued else Pending) && c.fault.Works? {
      assert k.target !in s.claims;
      assert Won(t.claims, k.target, me) && k.target !in t.uploads;
    }
  }

  lemma LoadOk(s: Store, me: nat, k: Process, c: Choice, t: Store, r: Process)
    requires ProcessOk(s, me, k) && k.pc.Loading? && Steps(s, me, k, c, t, r)
    ensures ProcessOk(t, me, r)
  {
    assert Unfold(c);
  }

  lemma UploaderOk(s: Store, me: nat, k: Process, c: Choice, t: Store, r: Process)
    requires Background(t, k) && k.pc.Calling? && Won(s.claims, k.target, me) && Steps(s, me, k, c, t, r)
    ensures ProcessOk(t, me, r)
  {
    assert Unfold(c);
    assert t.uploads[|s.uploads|] == k.target;
  }

  lemma NotYetSent(s: Store, id: nat)
    requires BrokerOk(s) && id < |s.rows| && s.rows[id].status.Pending?
    ensures !Sent(s, id)
  {
    forall i | 0 <= i < |s.dispatched|
      ensures s.dispatched[i].publication != id
    {
      assert MessageOk(s, s.dispatched[i]);
    }
  }

  /** The outcome of the transition into QUEUED. */
  lemma QueueStep(s: Store, me: nat, k: Process, c: Choice, t: Store, r: Process)
    requires Sensible(k) && k.pc.Queueing? && Steps(s, me, k, c, t, r)
    ensures r == k.(pc := r.pc) && Sensible(r) && t.dispatched == s.dispatched
    ensures Plain(r) || (&& Hits(s.rows, k.target, Pending) && r.pc.Dispatching? && Won(t.queuers, k.target, me)
                         && t.rows == s.rows[k.target := Update(s.rows[k.target], Queued, Enqueue(k.eta, k.since, r.pc.task))])
  {
    assert Unfold(c);
  }

  lemma QueuedOk(s: Store, me: nat, k: Process, c: Choice, t: Store, r: Process)
    requires BrokerOk(s) && Background(t, k) && k.pc.Queueing? && Steps(s, me, k, c, t, r)
    ensures ProcessOk(t, me, r)
  {
    QueueStep(s, me, k, c, t, r);
    if Plain(r) {
      PlainOk(t, me, r);
    } else {
      NotYetSent(s, k.target);
      assert !Sent(t, k.target);
    }
  }

  lemma SendStep(s: Store, me: nat, k: Process, c: Choice, t: Store, r: Process)
    requires Sensible(k) && k.pc.Dispatching? && Steps(s, me, k, c, t, r)
    ensures r == k.(pc := r.pc) && Sensible(r) && (r.pc.Unqueueing? || r.pc.Done?) && t.queuers == s.queuers
  {
    assert Unfold(c);
  }

  lemma SenderOk(s: Store, me: nat, k: Process, c: Choice, t: Store, r: Process)
    requires Background(t, k) && k.pc.Dispatching? && Won(s.queuers, k.target, me) && Steps(s, me, k, c, t, r)
    ensures ProcessOk(t, me, r)
  {
    SendStep(s, me, k, c, t, r);
  }

  /** A program counter from which no claim and no message to send is reached in one step. */
  predicate Idle(k: Process) {
    Sensible(k) && !k.pc.Done?
    && !k.pc.Claiming? && !k.pc.Loading? && !k.pc.Calling? && !k.pc.Queueing? && !k.pc.Dispatching?
  }

  lemma IdleResume(k: Process, reply: Reply, c: Choice)
    requires Idle(k)
    ensures var r := Resume(k, reply, c);
            Plain(r) && (r.kind.Worker? ==> r.target == k.target) && (r.eta == None || (r.eta == k.eta && r.since == k.since))
  {
  }

  lemma IdleStep(s: Store, me: nat, k: Process, c: Choice, t: Store, r: Process)
    requires Idle(k) && Steps(s, me, k, c, t, r)
    ensures Plain(r) && Sensible(r) && r.kind == k.kind
    ensures (r.kind.Worker? ==> r.target == k.target) && (r.eta == None || (r.eta == k.eta && r.since == k.since))
  {
    assert Unfold(c);
    IdleResume(k, ReplyOf(s, CallOf(k, c), c), c);
  }

  lemma IdleOk(s: Store, me: nat, k: Process, c: Choice, t: Store, r: Process)
    requires Background(t, k) && Idle(k) && Steps(s, me, k, c, t, r)
    ensures ProcessOk(t, me, r)
  {
    IdleStep(s, me, k, c, t, r);
    PlainOk(t, me, r);
  }

  lemma OwnOk(s: Store, me: nat, k: Process, c: Choice, t: Store, r: Process)
    requires StoreOk(s) && ProcessOk(s, me, k) && !k.pc.Done? && Steps(s, me, k, c, t, r) && Advances(s, t, me)
    ensures ProcessOk(t, me, r)
  {
    KeptBackground(s, t, me, k);
    if Idle(k) {
      IdleOk(s, me, k, c, t, r);
    } else if k.pc.Claiming? {
      ClaimOk(s, me, k, c, t, r);
    } else if k.pc.Loading? {
      LoadOk(s, me, k, c, t, r);
    } else if k.pc.Calling? {
      UploaderOk(s, me, k, c, t, r);
    } else if k.pc.Queueing? {
      QueuedOk(s, me, k, c, t, r);
    } else {
      SenderOk(s, me, k, c, t, r);
    }
  }

  /** The step of one process, with the others standing by. */
  lemma StepOk(s: State, me: nat, c: Choice, t: Store, r: Process)
    requires StateOk(s) && me < |s.processes| && !s.processes[me].pc.Done? && Steps(s.store, me, s.processes[me], c, t, r)
    ensures StateOk(State(t, s.processes[me := r])) && Advances(s.store, t, me)
  {
    CallOk(s.store, me, s.processes[me], c, t, r);
    OwnOk(s.store, me, s.processes[me], c, t, r);
    forall i | 0 <= i < |s.processes| && i != me
      ensures ProcessOk(t, i, s.processes[i])
    {
      OthersOk(s.store, t, me, i, s.processes[i]);
    }
  }

  lemma ActOk(s: State, me: nat, c: Choice)
    requires StateOk(s) && Possible(s, Act(me, c))
    ensures StateOk(Apply(s, Act(me, c))) && Advances(s.store, Apply(s, Act(me, c)).store, me)
  {
    var t := Apply(s, Act(me, c));
    ActSteps(s, me, c);
    StepOk(s, me, c, t.store, t.processes[me]);
    assert t == State(t.store, s.processes[me := t.processes[me]]);
  }

  lemma GrowOk(s: State, t: State)
    requires StateOk(s) && StoreOk(t.store) && Advances(s.store, t.store, |s.processes|)
    requires |s.processes| <= |t.processes|
    requires forall i :: 0 <= i < |s.processes| ==> t.processes[i] == s.processes[i]
    requires forall i :: |s.processes| <= i < |t.processes| ==> ProcessOk(t.store, i, t.processes[i])
    ensures StateOk(t)
  {
    forall i | 0 <= i < |s.processes|
      ensures ProcessOk(t.store, i, t.processes[i])
    {
      OthersOk(s.store, t.store, |s.processes|, i, s.processes[i]);
    }
  }

  lemma ArrivalOk(s: State, k: Process)
    requires StateOk(s) && Background(s.store, k) && Plain(k)
    ensures StateOk(s.(processes := s.processes + [k]))
  {
    SameOk(s.store, |s.processes|);
    PlainOk(s.store, |s.processes|, k);
    GrowOk(s, s.(processes := s.processes + [k]));
  }

  lemma DeliverOk(s: State, m: Delivery)
    requires StateOk(s) && m in s.store.broker
    ensures StateOk(s.(processes := s.processes + [NewWorker(m.publication)]))
  {
    BrokerSent(s.store, m);
    ArrivalOk(s, NewWorker(m.publication));
  }

  lemma BrokerSent(s: Store, m: Delivery)
    requires BrokerOk(s) && m in s.broker
    ensures Sent(s, m.publication)
  {
    var i :| 0 <= i < |s.dispatched| && s.dispatched[i] == m;
  }

  lemma CreateOk(s: State, asset: nat, provider: string, title: string)
    requires StateOk(s)
    ensures var t := Apply(s, Create(asset, provider, title)); StateOk(t) && Advances(s.store, t.store, |s.processes|)
  {
    var row := NewRow(|s.store.rows|, asset, None, provider, title);
    AppendOk(s.store, row);
    GrowOk(s, Apply(s, Create(asset, provider, title)));
  }

  lemma BrokerOnly(s: State, broker: multiset<Delivery>)
    requires StateOk(s) && forall m :: m in broker ==> m in s.store.broker
    ensures var t := s.(store := s.store.(broker := broker)); StateOk(t) && Advances(s.store, t.store, |s.processes|)
  {
    var t := s.store.(broker := broker);
    BrokerShrinks(s.store, t);
    GrowOk(s, s.(store := t));
  }

  lemma BrokerShrinks(s: Store, t: Store)
    requires BrokerOk(s) && t == s.(broker := t.broker) && forall m :: m in t.broker ==> m in s.broker
    ensures BrokerOk(t)
  {
    forall i | 0 <= i < |t.dispatched|
      ensures MessageOk(t, t.dispatched[i])
    {
      assert MessageOk(s, s.dispatched[i]);
    }
  }

  lemma CrashOk(s: State, who: nat)
    requires StateOk(s) && Possible(s, Crash(who))
    ensures StateOk(Apply(s, Crash(who)))
  {
    var t := Apply(s, Crash(who));
    forall i | 0 <= i < |t.processes|
      ensures ProcessOk(t.store, i, t.processes[i])
    {
      assert ProcessOk(s.store, i, s.processes[i]);
    }
  }

  /** Every event keeps the state in order. */
  lemma EventOk(s: State, e: Event)
    requires StateOk(s) && Possible(s, e)
    ensures StateOk(Apply(s, e))
    ensures exists me :: Advances(s.store, Apply(s, e).store, me)
  {
    var n := |s.processes|;
    SameOk(s.store, n);
    match e
    case Act(who, c) => ActOk(s, who, c);
    case Publish(id) => ArrivalOk(s, NewPublisher(id));
    case EnqueueAt(id, at, now) => ArrivalOk(s, NewEnqueuer(id, at, now));
    case Complete(execution, provider, title) => ArrivalOk(s, NewCoordinator(execution, provider, title));
    case Deliver(m) => DeliverOk(s, m);
    case Create(asset, provider, title) => CreateOk(s, asset, provider, title);
    case Duplicate(m) => BrokerOnly(s, s.store.broker + multiset{m});
    case Lose(m) => BrokerOnly(s, s.store.broker - multiset{m});
    case Crash(who) => CrashOk(s, who);
  }

  /** A run keeps the state in order, from wherever it starts. */
  lemma {:induction false} RunOk(s: State, events: seq<Event>, t: State)
    requires StateOk(s) && Run(s, events, t)
    ensures StateOk(t) && RowsAdvance(s.store.rows, t.store.rows)
    ensures s.store.uploads <= t.store.uploads && s.store.dispatched <= t.store.dispatched
    decreases |events|
  {
    if events != [] {
      var next := Apply(s, events[0]);
      EventOk(s, events[0]);
      RunOk(next, events[1..], t);
      AdvanceTrans(s.store.rows, next.store.rows, t.store.rows);
    }
  }

  lemma AdvanceTrans(a: Table, b: Table, c: Table)
    requires RowsAdvance(a, b) && RowsAdvance(b, c)
    ensures RowsAdvance(a, c)
  {
    forall i | 0 <= i < |a|
      ensures RowAdvances(a[i], c[i])
    {
      assert RowAdvances(a[i], b[i]) && RowAdvances(b[i], c[i]);
    }
  }

  ghost predicate Reachable(s: State) {
    exists events :: Run(INITIAL, events, s)
  }

  lemma InitialOk()
    ensures StateOk(INITIAL)
  {
  }

  lemma ReachableOk(s: State)
    requires Reachable(s)
    ensures StateOk(s)
  {
    var events :| Run(INITIAL, events, s);
    InitialOk();
    RunOk(INITIAL, events, s);
  }

  // ----- the main results -----

  /** The publications of the messages sent. */
  function Addressees(messages: seq<Delivery>): (ids: seq<nat>)
    ensures |ids| == |messages| && forall i :: 0 <= i < |ids| ==> ids[i] == messages[i].publication
  {
    seq(|messages|, i requires 0 <= i < |messages| => messages[i].publication)
  }

  /** However calls fail, processes vanish and messages repeat: no publication is handed to a
      provider twice or sent to the broker twice, only one that was claimed is handed over,
      and one is PUBLISHED only after it was. */
  lemma AtMostOnce(s: State, id: nat)
    requires Reachable(s)
    ensures Count(s.store.uploads, id) <= 1 && Count(Addressees(s.store.dispatched), id) <= 1
    ensures id in s.store.uploads ==> id < |s.store.rows| && Rank(s.store.rows[id].status) >= 2
    ensures id < |s.store.rows| && s.store.rows[id].status.Published? ==> Count(s.store.uploads, id) == 1
  {
    ReachableOk(s);
    DistinctCount(s.store.uploads, id);
    DistinctCount(Addressees(s.store.dispatched), id);
  }

  /** Per (execution, provider, asset): at most one row, hence at most one message and at most
      one provider call. */
  lemma OncePerKey(s: State, key: Key, i: nat, j: nat)
    requires Reachable(s) && i < |s.store.rows| && j < |s.store.rows|
    requires KeyOf(s.store.rows[i]) == KeyOf(s.store.rows[j]) == Some(key)
    ensures i == j && Count(s.store.uploads, i) <= 1 && Count(Addressees(s.store.dispatched), i) <= 1
  {
    ReachableOk(s);
    AtMostOnce(s, i);
  }

  /** The columns of every row fit its status, and every message in the broker is for a row
      that has left PENDING with that task and schedule. */
  lemma Coherent(s: State)
    requires Reachable(s)
    ensures forall i :: 0 <= i < |s.store.rows| ==> s.store.rows[i].id == i && RowOk(s.store.rows[i])
    ensures forall m :: m in s.store.broker ==> MessageOk(s.store, m)
  {
    ReachableOk(s);
    forall m | m in s.store.broker
      ensures MessageOk(s.store, m)
    {
      var i :| 0 <= i < |s.store.dispatched| && s.store.dispatched[i] == m;
    }
  }

  /** From any reachable state on, a row keeps its identity and only moves up, and PUBLISHED
      and FAILED rows never change again. */
  lemma RowsOnlyRise(s: State, events: seq<Event>, t: State, id: nat)
    requires Reachable(s) && Run(s, events, t) && id < |s.store.rows|
    ensures id < |t.store.rows| && RowAdvances(s.store.rows[id], t.store.rows[id])
    ensures Rank(s.store.rows[id].status) == 3 ==> t.store.rows[id] == s.store.rows[id]
  {
    ReachableOk(s);
    RunOk(s, events, t);
  }
}
