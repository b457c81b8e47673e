/** What a row says about its provider call, even when repository calls may raise: a PUBLISHED
    row carries the response of the one call it had, a FAILED row blames the provider only for
    what the provider did, and the provider was given the row's own asset and title. */
module PublishingAnswers {
  import opened Values
  import opened PublishingErrors
  import opened Publications
  import opened PublishingProtocol
  import opened PublishingSafety

  ghost predicate Answered(s: Store, id: nat, a: Answer) {
    id in s.handovers && s.handovers[id].answer == a
  }

  /** What a recorded refusal implies about the provider call. */
  ghost predicate Explains(s: Store, id: nat, r: Refusal) {
    match r
    case AssetMissing | AssetInvalid | UnsupportedProvider => id !in s.handovers
    case QueueFailed => id !in s.handovers && id !in s.claims
    case FromProvider(code, message) =>
      Answered(s, id, ApplicationFailure(code, message)) || Answered(s, id, ProviderFailure(code, message))
    case ProviderCrashed => id in s.handovers ==> Answered(s, id, OtherFailure)
    case InvalidResponse => exists e, u :: (e == "" || u == "") && Answered(s, id, Response(e, u))
    case _ => false
  }

  ghost predicate RowSays(s: Store, id: nat, r: Row) {
    && (r.status.Published? && r.externalId.Some? && r.externalUrl.Some? ==>
          Answered(s, id, Response(r.externalId.value, r.externalUrl.value)))
    && (r.error.Some? && r.error.value.Because? ==> Explains(s, id, r.error.value.refusal))
  }

  ghost predicate RowsSay(s: Store) {
    forall i :: 0 <= i < |s.rows| ==> RowOk(s.rows[i]) && RowSays(s, i, s.rows[i])
  }

  ghost predicate HandoversOk(s: Store) {
    && (forall id :: id in s.handovers <==> id in s.uploads)
    && (forall id :: id in s.handovers ==>
          id < |s.rows| && id in s.claims && s.handovers[id].asset == s.rows[id].asset && s.handovers[id].title == s.rows[id].title)
  }

  /** The row does not already carry a refusal. */
  predicate Unblamed(r: Row) {
    r.error.Some? ==> !r.error.value.Because?
  }

  /** The snapshot that the claimant holds still names its row's asset and title. */
  ghost predicate Snapshot(s: Store, id: nat, row: Row) {
    && id < |s.rows| && row.asset == s.rows[id].asset && row.title == s.rows[id].title
    && Unblamed(s.rows[id]) && Rank(s.rows[id].status) >= 2
  }

  ghost predicate ProcessSays(s: Store, k: Process) {
    match k.pc
    case Loading(row) => Snapshot(s, k.target, row)
    case Calling(row, _) => Snapshot(s, k.target, row)
    case Completing(id, url) => Answered(s, k.target, Response(id, url))
    case Failing(r) => Explains(s, k.target, r) && !r.QueueFailed?
    case _ => true
  }

  ghost predicate AnswersOk(s: State) {
    && StateOk(s) && RowsSay(s.store) && HandoversOk(s.store)
    && forall i :: 0 <= i < |s.processes| ==> ProcessSays(s.store, s.processes[i])
  }

  // ----- what one process may do to answers and errors -----

  /** Only a claimant adds a provider call or records a refusal, except that a QUEUED row may
      get a queue error. */
  ghost predicate AnswersAdvance(s: Store, t: Store, me: nat) {
    && (forall id :: id in s.handovers ==> id in t.handovers && t.handovers[id] == s.handovers[id])
    && (forall id :: id in t.handovers && id !in s.handovers ==> Won(s.claims, id, me))
    && (forall i :: 0 <= i < |s.rows| && i < |t.rows| && Unblamed(s.rows[i]) && !Unblamed(t.rows[i]) ==>
          s.rows[i].status.Queued? || Won(s.claims, i, me))
  }

  lemma OthersSay(s: Store, t: Store, me: nat, other: nat, k: Process)
    requires ProcessOk(s, other, k) && ProcessSays(s, k) && me != other
    requires Advances(s, t, me) && AnswersAdvance(s, t, me)
    ensures ProcessSays(t, k)
  {
    match k.pc
    case Loading(row) => assert RowAdvances(s.rows[k.target], t.rows[k.target]);
    case Calling(row, _) => assert RowAdvances(s.rows[k.target], t.rows[k.target]);
    case Failing(r) => ExplainsStays(s, t, me, other, k.target, r);
    case _ =>
  }

  lemma ExplainsStays(s: Store, t: Store, me: nat, other: nat, id: nat, r: Refusal)
    requires Won(s.claims, id, other) && me != other && Explains(s, id, r) && !r.QueueFailed?
    requires AnswersAdvance(s, t, me)
    ensures Explains(t, id, r)
  {
    if r.InvalidResponse? {
      var e, u :| (e == "" || u == "") && Answered(s, id, Response(e, u));
      assert Answered(t, id, Response(e, u));
    }
  }

  // ----- the rows -----

  /** A transition that writes what the provider call justifies. */
  ghost predicate Justified(s: Store, id: nat, w: Write) {
    match w
    case Success(e, u, _) => Answered(s, id, Response(e, u))
    case Failure(cause) => cause.Because? ==> Explains(s, id, cause.refusal)
    case _ => true
  }

  lemma UpdateSays(s: Store, id: nat, to: Status, w: Write)
    requires id < |s.rows| && RowOk(s.rows[id]) && Legal(s.rows[id].status, to, w) && Justified(s, id, w)
    ensures RowSays(s, id, Update(s.rows[id], to, w))
  {
  }

  /** What a row says does not depend on the tables, only on calls and claims. */
  lemma SaysFrame(s: Store, t: Store, id: nat, r: Row)
    requires RowSays(s, id, r) && t.handovers == s.handovers
    requires r.error == Some(Because(QueueFailed)) ==> id !in t.claims
    ensures RowSays(t, id, r)
  {
    if r.error.Some? && r.error.value.Because? && r.error.value.refusal.InvalidResponse? {
      var e, u :| (e == "" || u == "") && Answered(s, id, Response(e, u));
      assert Answered(t, id, Response(e, u));
    }
  }

  lemma TransitionSays(s: Store, me: nat, id: nat, from: Status, to: Status, w: Write)
    requires StoreOk(s) && RowsSay(s) && HandoversOk(s) && Legal(from, to, w)
    requires Hits(s.rows, id, from) ==> Justified(s, id, w)
    requires w.Failure? && w.cause.Because? && !from.Queued? ==> Won(s.claims, id, me)
    ensures var t := TransitionStore(s, me, id, from, to, w); RowsSay(t) && HandoversOk(t) && AnswersAdvance(s, t, me)
  {
    var t := TransitionStore(s, me, id, from, to, w);
    if Hits(s.rows, id, from) {
      UpdateOk(s.rows[id], to, w);
      UpdateSays(s, id, to, w);
      assert t.rows == s.rows[id := Update(s.rows[id], to, w)];
      OneRowSays(s, t, id, to);
      OneRowAdvances(s, t, me, id, from, to, w);
    }
  }

  lemma OneRowSays(s: Store, t: Store, id: nat, to: Status)
    requires RowsSay(s) && id < |s.rows| && |t.rows| == |s.rows| && t.handovers == s.handovers
    requires forall i :: 0 <= i < |s.rows| && i != id ==> t.rows[i] == s.rows[i]
    requires RowOk(t.rows[id]) && RowSays(s, id, t.rows[id]) && t.rows[id].status == to
    requires forall x :: x in t.claims ==> x in s.claims || (x == id && to.Publishing?)
    ensures RowsSay(t)
  {
    forall i | 0 <= i < |t.rows|
      ensures RowOk(t.rows[i]) && RowSays(t, i, t.rows[i])
    {
      assert RowSays(s, i, t.rows[i]);
      SaysFrame(s, t, i, t.rows[i]);
    }
  }

  lemma OneRowAdvances(s: Store, t: Store, me: nat, id: nat, from: Status, to: Status, w: Write)
    requires HandoversOk(s) && id < |s.rows| && s.rows[id].status == from && RowOk(s.rows[id]) && Legal(from, to, w)
    requires t.rows == s.rows[id := Update(s.rows[id], to, w)] && t.handovers == s.handovers && t.uploads == s.uploads
    requires forall x :: x in s.claims ==> x in t.claims
    requires w.Failure? && w.cause.Because? && !from.Queued? ==> Won(s.claims, id, me)
    ensures HandoversOk(t) && AnswersAdvance(s, t, me)
  {
  }

  /** Rows only join the table. */
  lemma RowsJoin(s: Store, rows: Table)
    requires RowsSay(s) && HandoversOk(s) && |s.rows| <= |rows| && rows[..|s.rows|] == s.rows
    requires forall i :: |s.rows| <= i < |rows| ==> RowOk(rows[i]) && rows[i].status.Pending?
    ensures var t := s.(rows := rows); RowsSay(t) && HandoversOk(t) && forall me :: AnswersAdvance(s, t, me)
  {
    var t := s.(rows := rows);
    assert forall i :: 0 <= i < |s.rows| ==> rows[i] == s.rows[i];
    forall i | 0 <= i < |rows|
      ensures RowOk(rows[i]) && RowSays(t, i, rows[i])
    {
      if i < |s.rows| {
        SaysFrame(s, t, i, rows[i]);
      }
    }
  }

  lemma UploadSays(s: Store, me: nat, id: nat, h: Handover)
    requires StoreOk(s) && RowsSay(s) && HandoversOk(s) && Won(s.claims, id, me) && id !in s.uploads
    requires id < |s.rows| && Unblamed(s.rows[id]) && h.asset == s.rows[id].asset && h.title == s.rows[id].title
    ensures var t := s.(uploads := s.uploads + [id], handovers := s.handovers[id := h]);
            RowsSay(t) && HandoversOk(t) && AnswersAdvance(s, t, me)
  {
    var t := s.(uploads := s.uploads + [id], handovers := s.handovers[id := h]);
    forall i | 0 <= i < |t.rows|
      ensures RowSays(t, i, t.rows[i])
    {
      if i != id {
        OtherRowSays(s, t, i, t.rows[i]);
      }
    }
    forall x
      ensures x in t.handovers <==> x in t.uploads
    {
      assert x in t.uploads <==> x in s.uploads || x == id;
    }
  }

  lemma OtherRowSays(s: Store, t: Store, i: nat, r: Row)
    requires RowSays(s, i, r) && t.claims == s.claims
    requires i in t.handovers <==> i in s.handovers
    requires i in s.handovers ==> t.handovers[i] == s.handovers[i]
    ensures RowSays(t, i, r)
  {
    if r.error.Some? && r.error.value.Because? && r.error.value.refusal.InvalidResponse? {
      var e, u :| (e == "" || u == "") && Answered(s, i, Response(e, u));
      assert Answered(t, i, Response(e, u));
    }
  }

  // ----- the process that steps -----

  /** The calls that keep rows and answers together. */
  ghost predicate Honest(s: Store, me: nat, call: Call) {
    match call
    case Transition(id, from, to, w) =>
      && (Hits(s.rows, id, from) ==> Justified(s, id, w))
      && (w.Failure? && w.cause.Because? && !from.Queued? ==> Won(s.claims, id, me))
    case Upload(id, asset, title, media) =>
      id < |s.rows| && Unblamed(s.rows[id]) && asset == s.rows[id].asset && title == s.rows[id].title
    case _ => true
  }

  lemma QueuedUnhandled(s: Store, id: nat)
    requires StoreOk(s) && HandoversOk(s) && Hits(s.rows, id, Queued)
    ensures Explains(s, id, QueueFailed)
  {
  }

  lemma CallHonest(s: Store, me: nat, k: Process, c: Choice)
    requires StoreOk(s) && HandoversOk(s) && ProcessOk(s, me, k) && ProcessSays(s, k)
    ensures Honest(s, me, CallOf(k, c))
  {
    if k.pc.Unqueueing? && Hits(s.rows, k.target, Queued) {
      QueuedUnhandled(s, k.target);
    }
  }

  lemma SameSays(s: Store, me: nat)
    requires RowsSay(s)
    ensures AnswersAdvance(s, s, me)
  {
  }

  lemma SendSays(s: Store, t: Store, me: nat)
    requires RowsSay(s) && HandoversOk(s) && t == s.(broker := t.broker, dispatched := t.dispatched)
    ensures RowsSay(t) && HandoversOk(t) && AnswersAdvance(s, t, me)
  {
    forall i | 0 <= i < |t.rows|
      ensures RowSays(t, i, t.rows[i])
    {
      SaysFrame(s, t, i, t.rows[i]);
    }
  }

  lemma InsertSays(s: Store, me: nat, key: Key, title: string)
    requires RowsSay(s) && HandoversOk(s)
    ensures var t := s.(rows := InsertRows(s.rows, key, title)); RowsSay(t) && HandoversOk(t) && AnswersAdvance(s, t, me)
  {
    RowsJoin(s, InsertRows(s.rows, key, title));
  }

  lemma EffectSays(s: Store, me: nat, call: Call, c: Choice)
    requires StoreOk(s) && RowsSay(s) && HandoversOk(s) && Allowed(s, me, call) && Honest(s, me, call)
    ensures var t := Effect(s, me, call, c); RowsSay(t) && HandoversOk(t) && AnswersAdvance(s, t, me)
  {
    match call
    case Transition(id, from, to, w) => TransitionSays(s, me, id, from, to, w);
    case Insert(key, title) => InsertSays(s, me, key, title);
    case Upload(id, asset, title, media) => UploadSays(s, me, id, Handover(asset, title, media, c.answer));
    case _ => SendSays(s, Effect(s, me, call, c), me);
  }

  lemma CallSays(s: Store, me: nat, k: Process, c: Choice, t: Store, r: Process)
    requires StoreOk(s) && RowsSay(s) && HandoversOk(s) && ProcessOk(s, me, k) && ProcessSays(s, k)
    requires Steps(s, me, k, c, t, r)
    ensures RowsSay(t) && HandoversOk(t) && AnswersAdvance(s, t, me)
  {
    assert Unfold(c);
    SameSays(s, me);
    CallAllowed(s, me, k, c);
    CallHonest(s, me, k, c);
    EffectSays(s, me, CallOf(k, c), c);
  }

  lemma ClaimSays(s: Store, me: nat, k: Process, c: Choice, t: Store, r: Process)
    requires RowsSay(s) && Sensible(k) && k.pc.Claiming? && Steps(s, me, k, c, t, r)
    ensures ProcessSays(t, r)
  {
    assert Unfold(c);
    var from := if k.kind.Worker? then Queued else Pending;
    if Hits(s.rows, k.target, from) && c.fault.Works? {
      assert RowOk(s.rows[k.target]);
    }
  }

  lemma LoadSays(s: Store, me: nat, k: Process, c: Choice, t: Store, r: Process)
    requires HandoversOk(s) && ProcessOk(s, me, k) && ProcessSays(s, k) && k.pc.Loading? && Steps(s, me, k, c, t, r)
    ensures ProcessSays(t, r)
  {
    assert Unfold(c);
    assert k.target !in s.handovers;
  }

  lemma CalledSays(s: Store, me: nat, k: Process, c: Choice, t: Store, r: Process)
    requires Sensible(k) && k.pc.Calling? && Steps(s, me, k, c, t, r)
    ensures ProcessSays(t, r)
  {
    assert Unfold(c);
    assert Answered(t, k.target, c.answer);
    if c.answer.Response? {
      assert Answered(t, k.target, Response(c.answer.externalId, c.answer.externalUrl));
    }
  }

  /** No other program counter says anything. */
  predicate Silent(k: Process) {
    !k.pc.Loading? && !k.pc.Calling? && !k.pc.Completing? && !k.pc.Failing?
  }

  lemma SilentStep(s: Store, me: nat, k: Process, c: Choice, t: Store, r: Process)
    requires Sensible(k) && !k.pc.Claiming? && !k.pc.Loading? && !k.pc.Calling? && !k.pc.Done? && Steps(s, me, k, c, t, r)
    ensures Silent(r)
  {
    assert Unfold(c);
  }

  lemma OwnSays(s: Store, me: nat, k: Process, c: Choice, t: Store, r: Process)
    requires RowsSay(s) && HandoversOk(s) && ProcessOk(s, me, k) && ProcessSays(s, k) && !k.pc.Done? && Steps(s, me, k, c, t, r)
    ensures ProcessSays(t, r)
  {
    if k.pc.Claiming? {
      ClaimSays(s, me, k, c, t, r);
    } else if k.pc.Loading? {
      LoadSays(s, me, k, c, t, r);
    } else if k.pc.Calling? {
      CalledSays(s, me, k, c, t, r);
    } else {
      SilentStep(s, me, k, c, t, r);
    }
  }

  // ----- runs -----

  lemma ActSays(s: State, me: nat, c: Choice)
    requires AnswersOk(s) && Possible(s, Act(me, c))
    ensures AnswersOk(Apply(s, Act(me, c)))
  {
    var t := Apply(s, Act(me, c));
    ActOk(s, me, c);
    ActSteps(s, me, c);
    CallSays(s.store, me, s.processes[me], c, t.store, t.processes[me]);
    OwnSays(s.store, me, s.processes[me], c, t.store, t.processes[me]);
    forall i | 0 <= i < |t.processes|
      ensures ProcessSays(t.store, t.processes[i])
    {
      if i != me {
        OthersSay(s.store, t.store, me, i, s.processes[i]);
      }
    }
  }

  lemma QuietSays(s: State, e: Event)
    requires AnswersOk(s) && Possible(s, e) && !e.Act?
    ensures AnswersOk(Apply(s, e))
  {
    var t := Apply(s, e);
    var n := |s.processes|;
    EventOk(s, e);
    QuietStores(s, e);
    forall i | 0 <= i < |t.processes|
      ensures ProcessSays(t.store, t.processes[i])
    {
      if i < n {
        OthersSay(s.store, t.store, n, i, s.processes[i]);
      }
    }
  }

  lemma QuietStores(s: State, e: Event)
    requires RowsSay(s.store) && HandoversOk(s.store) && Possible(s, e) && !e.Act?
    ensures var t := Apply(s, e);
            && RowsSay(t.store) && HandoversOk(t.store)
            && Advances(s.store, t.store, |s.processes|) && AnswersAdvance(s.store, t.store, |s.processes|)
            && |s.processes| <= |t.processes|
            && (forall i :: 0 <= i < |s.processes| ==> t.processes[i].pc == s.processes[i].pc && t.processes[i].target == s.processes[i].target)
            && (forall i :: |s.processes| <= i < |t.processes| ==> Silent(t.processes[i]))
  {
    if e.Create? {
      RowsJoin(s.store, Apply(s, e).store.rows);
    } else {
      SendSays(s.store, Apply(s, e).store, |s.processes|);
    }
  }

  lemma {:induction false} RunSays(s: State, events: seq<Event>, t: State)
    requires AnswersOk(s) && Run(s, events, t)
    ensures AnswersOk(t)
    decreases |events|
  {
    if events != [] {
      if events[0].Act? {
        ActSays(s, events[0].who, events[0].choice);
      } else {
        QuietSays(s, events[0]);
      }
      RunSays(Apply(s, events[0]), events[1..], t);
    }
  }

  /** In every reachable state: a PUBLISHED row carries the external id and URL of the response
      to its one provider call; that call was given the row's own asset and title; a FAILED row
      carries a provider's error only if the provider raised it; and a row that failed over its
      asset, its provider's name or the queue was never handed to a provider. */
  lemma RowsTellTheTruth(s: State, id: nat)
    requires Reachable(s) && id < |s.store.rows|
    ensures var r := s.store.rows[id];
            && (r.status.Published? ==>
                  && r.externalId.Some? && r.externalUrl.Some?
                  && Answered(s.store, id, Response(r.externalId.value, r.externalUrl.value)))
            && (id in s.store.handovers ==> s.store.handovers[id].asset == r.asset && s.store.handovers[id].title == r.title)
            && (r.error.Some? && r.error.value.Because? ==> Explains(s.store, id, r.error.value.refusal))
  {
    var events :| Run(INITIAL, events, s);
    InitialOk();
    RunSays(INITIAL, events, s);
    assert RowOk(s.store.rows[id]) && RowSays(s.store, id, s.store.rows[id]);
  }
}
