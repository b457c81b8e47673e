/** When the generic worker error is what a row ends with, while repository calls work. */
module PublishingFallback {
  import opened Values
  import opened PublishingErrors
  import opened Publications
  import opened PublishingProtocol
  import opened PublishingSafety
  import opened PublishingClaims
  import A = PublishingAnswers

  /** The texts that an answer makes the service store are short enough for the update. */
  predicate AnswerFits(a: Answer) {
    match a
    case Response(id, url) => id == "" || url == "" || SuccessFits(id, url)
    case ApplicationFailure(code, message) => FailureFits(FromProvider(code, message))
    case ProviderFailure(code, message) => FailureFits(FromProvider(code, message))
    case OtherFailure => true
  }

  /** The provider was called, and its answer does not fit the columns. */
  predicate Unfit(s: Store, id: nat) {
    id in s.handovers && !AnswerFits(s.handovers[id].answer)
  }

  /** What a row stores fits; the generic error stands for what does not. */
  predicate RowFits(s: Store, id: nat, r: Row) {
    && (r.error.Some? && r.error.value.Because? ==> FailureFits(r.error.value.refusal))
    && (r.error.Some? && !r.error.value.Because? ==> r.error.value.WorkerError? && Unfit(s, id))
    && (r.externalId.Some? && r.externalUrl.Some? ==> SuccessFits(r.externalId.value, r.externalUrl.value))
  }

  predicate ProcessFits(s: Store, k: Process) {
    match k.pc
    case Failing(r) => FailureFits(r)
    case Completing(id, url) => SuccessFits(id, url)
    case FailingQueued(p) => p.Other? ==> Unfit(s, k.target)
    case FailingPublishing(p) => p.Other? ==> Unfit(s, k.target)
    case _ => true
  }

  ghost predicate FitsOk(s: State) {
    && CalmOk(s) && A.AnswersOk(s)
    && (forall i :: 0 <= i < |s.store.rows| ==> RowFits(s.store, i, s.store.rows[i]))
    && forall i :: 0 <= i < |s.processes| ==> ProcessFits(s.store, s.processes[i])
  }

  lemma OthersFit(s: Store, t: Store, me: nat, k: Process)
    requires A.AnswersAdvance(s, t, me) && ProcessFits(s, k)
    ensures ProcessFits(t, k)
  {
  }

  /** The transitions that store only what fits. */
  predicate Fitting(s: Store, id: nat, w: Write) {
    match w
    case Success(e, u, _) => SuccessFits(e, u)
    case Failure(cause) =>
      if cause.Because? then FailureFits(cause.refusal) else cause.WorkerError? && Unfit(s, id)
    case _ => true
  }

  lemma CallFits(s: Store, me: nat, k: Process, c: Choice)
    requires ProcessOk(s, me, k) && ClaimsOk(s, me, k) && ProcessFits(s, k)
    ensures var call := CallOf(k, c); call.Transition? && Hits(s.rows, call.id, call.from) ==> Fitting(s, call.id, call.w)
  {
  }

  lemma RowsFit(s: Store, me: nat, k: Process, c: Choice, t: Store, r: Process)
    requires ProcessOk(s, me, k) && ClaimsOk(s, me, k) && ProcessFits(s, k) && Steps(s, me, k, c, t, r)
    requires forall i :: 0 <= i < |s.rows| ==> RowFits(s, i, s.rows[i])
    requires A.AnswersAdvance(s, t, me)
    ensures forall i :: 0 <= i < |t.rows| ==> RowFits(t, i, t.rows[i])
  {
    assert Unfold(c);
    CallFits(s, me, k, c);
    EffectFits(s, me, CallOf(k, c), c);
    forall i | 0 <= i < |t.rows|
      ensures RowFits(t, i, t.rows[i])
    {
      assert RowFits(s, i, t.rows[i]);
    }
  }

  lemma EffectFits(s: Store, me: nat, call: Call, c: Choice)
    requires forall i :: 0 <= i < |s.rows| ==> RowFits(s, i, s.rows[i])
    requires call.Transition? && Hits(s.rows, call.id, call.from) ==> Fitting(s, call.id, call.w)
    ensures forall i :: 0 <= i < |StoreAfter(s, me, call, c).rows| ==> RowFits(s, i, StoreAfter(s, me, call, c).rows[i])
  {
  }

  lemma FailWithFits(s: Store, k: Process, r: Refusal)
    requires k.kind.Worker? || k.kind.Publisher?
    requires FailureFits(r) || Unfit(s, k.target)
    ensures ProcessFits(s, k.(pc := FailWith(k, r)))
  {
  }

  /** The only place where the generic error can come from. */
  lemma CalledFits(s: Store, me: nat, k: Process, c: Choice, t: Store, r: Process)
    requires Sensible(k) && k.pc.Calling? && Steps(s, me, k, c, t, r)
    ensures ProcessFits(t, r)
  {
    assert Unfold(c);
    assert k.target in t.handovers && t.handovers[k.target].answer == c.answer;
    match c.answer
    case ApplicationFailure(code, message) => FailWithFits(t, k, FromProvider(code, message));
    case ProviderFailure(code, message) => FailWithFits(t, k, FromProvider(code, message));
    case OtherFailure => FailWithFits(t, k, ProviderCrashed);
    case Response(id, url) => FailWithFits(t, k, InvalidResponse);
  }

  lemma OtherwiseFits(s: Store, me: nat, k: Process, c: Choice, t: Store, r: Process)
    requires Sensible(k) && !k.pc.Calling? && !k.pc.Done? && c.fault.Works? && ProcessFits(t, k) && Steps(s, me, k, c, t, r)
    ensures ProcessFits(t, r)
  {
    assert Unfold(c);
  }

  lemma ActFits(s: State, me: nat, c: Choice)
    requires FitsOk(s) && Possible(s, Act(me, c)) && c.fault.Works?
    ensures FitsOk(Apply(s, Act(me, c)))
  {
    var k := s.processes[me];
    var t := Apply(s, Act(me, c));
    ActCalm(s, me, c);
    A.ActSays(s, me, c);
    ActSteps(s, me, c);
    A.CallSays(s.store, me, k, c, t.store, t.processes[me]);
    RowsFit(s.store, me, k, c, t.store, t.processes[me]);
    forall i | 0 <= i < |t.processes|
      ensures ProcessFits(t.store, t.processes[i])
    {
      OthersFit(s.store, t.store, me, s.processes[i]);
      if i == me {
        if k.pc.Calling? {
          CalledFits(s.store, me, k, c, t.store, t.processes[me]);
        } else {
          OtherwiseFits(s.store, me, k, c, t.store, t.processes[me]);
        }
      }
    }
  }

  lemma QuietFits(s: State, e: Event)
    requires FitsOk(s) && Possible(s, e) && !e.Act?
    ensures FitsOk(Apply(s, e))
  {
    var t := Apply(s, e);
    QuietCalm(s, e);
    A.QuietSays(s, e);
    QuietStore(s, e);
    forall i | 0 <= i < |t.processes|
      ensures ProcessFits(t.store, t.processes[i])
    {
      if i < |s.processes| {
        assert ProcessFits(s.store, s.processes[i]);
      }
    }
  }

  /** Arrivals, crashes and the broker store nothing, and bring nobody to a failure. */
  lemma QuietStore(s: State, e: Event)
    requires Possible(s, e) && !e.Act?
    ensures var t := Apply(s, e);
            && t.store.handovers == s.store.handovers && |s.store.rows| <= |t.store.rows|
            && (forall i :: 0 <= i < |s.store.rows| ==> t.store.rows[i] == s.store.rows[i])
            && (forall i :: |s.store.rows| <= i < |t.store.rows| ==> RowFits(t.store, i, t.store.rows[i]))
            && |s.processes| <= |t.processes|
            && (forall i :: 0 <= i < |s.processes| ==> t.processes[i].pc == s.processes[i].pc && t.processes[i].target == s.processes[i].target)
            && (forall i :: |s.processes| <= i < |t.processes| ==> ProcessFits(t.store, t.processes[i]))
  {
  }

  lemma {:induction false} RunFits(s: State, events: seq<Event>, t: State)
    requires FitsOk(s) && Run(s, events, t) && forall i :: 0 <= i < |events| ==> Healthy(events[i])
    ensures FitsOk(t)
    decreases |events|
  {
    if events != [] {
      var e := events[0];
      assert Healthy(e);
      if e.Act? {
        ActFits(s, e.who, e.choice);
      } else {
        QuietFits(s, e);
      }
      RunFits(Apply(s, e), events[1..], t);
    }
  }

  lemma CalmlyFits(s: State)
    requires CalmlyReachable(s)
    ensures FitsOk(s)
  {
    var events :| Run(INITIAL, events, s) && forall i :: 0 <= i < |events| ==> Healthy(events[i]);
    RunFits(INITIAL, events, s);
  }

  /** A refusal that a row carries never hides an answer that does not fit. */
  lemma RefusalFits(s: Store, id: nat, r: Refusal)
    requires A.Explains(s, id, r) && FailureFits(r)
    ensures !Unfit(s, id)
  {
  }

  /** With working repository calls, a FAILED row carries the generic worker error exactly when
      the provider was called and its answer does not fit the columns; such a publication is
      never PUBLISHED, but stays PUBLISHING unless its worker writes that error. */
  lemma GenericErrorIff(s: State, id: nat)
    requires CalmlyReachable(s) && id < |s.store.rows|
    ensures Is(s.store, id, Failed) ==> (s.store.rows[id].error == Some(WorkerError) <==> Unfit(s.store, id))
    ensures s.store.rows[id].error == Some(WorkerError) ==> Is(s.store, id, Failed)
    ensures Unfit(s.store, id) ==> Is(s.store, id, Publishing) || Carries(s.store, id, WorkerError)
  {
    CalmlyFits(s);
    var r := s.store.rows[id];
    assert RowFits(s.store, id, r) && RowOk(r) && A.RowSays(s.store, id, r);
    assert Unfit(s.store, id) ==> id in s.store.claims;
    RowDecides(s.store, id, r);
  }

  lemma RowDecides(s: Store, id: nat, r: Row)
    requires RowFits(s, id, r) && RowOk(r) && A.RowSays(s, id, r) && (Unfit(s, id) ==> Rank(r.status) >= 2)
    ensures r.status.Failed? ==> (r.error == Some(WorkerError) <==> Unfit(s, id))
    ensures r.error == Some(WorkerError) ==> r.status.Failed?
    ensures Unfit(s, id) ==> r.status.Publishing? || (r.status.Failed? && r.error == Some(WorkerError))
  {
    if r.error.Some? && r.error.value.Because? {
      RefusalFits(s, id, r.error.value.refusal);
    }
  }

  /** A worker that has reported back left the generic error exactly when its provider's answer
      did not fit. */
  lemma ReportedGenericIff(s: State, i: nat)
    requires CalmlyReachable(s) && i < |s.processes| && s.processes[i].kind.Worker?
    requires s.processes[i].pc.Done? && s.processes[i].pc.outcome.Reported?
    ensures var k := s.processes[i];
            && Is(s.store, k.target, Failed)
            && (k.pc.outcome.problem.Other? <==> Carries(s.store, k.target, WorkerError))
            && (k.pc.outcome.problem.Other? <==> Unfit(s.store, k.target))
  {
    ReportedIsRecorded(s, i);
    GenericErrorIff(s, s.processes[i].target);
  }

  lemma ReportedIsRecorded(s: State, i: nat)
    requires CalmlyReachable(s) && i < |s.processes| && s.processes[i].kind.Worker?
    requires s.processes[i].pc.Done? && s.processes[i].pc.outcome.Reported?
    ensures var k := s.processes[i];
            && Is(s.store, k.target, Failed)
            && (k.pc.outcome.problem.Other? <==> Carries(s.store, k.target, WorkerError))
  {
    CalmlyOk(s);
    assert ClaimsOk(s.store, i, s.processes[i]);
  }
}
