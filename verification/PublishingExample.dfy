/** A run in which enqueue reports PUBLISHING_QUEUE_ERROR and the publication is published. */
module PublishingExample {
  import opened Values
  import opened PublishingErrors
  import opened Publications
  import opened PublishingProtocol
  import PublishingClaims

  const MEDIA := Asset("video/", "k", 1)

  /** Every repository call works; the broker takes the message and raises. */
  const CHOICE := Choice(Works, 0, 7, Some(MEDIA), true, Response("i", "u"), Sending(true, None), false, [])

  const PENDING_ROW := NewRow(0, 0, None, "p", "t")
  const QUEUED_ROW := Update(PENDING_ROW, Queued, Write.Enqueue(None, 0, 7))
  const CLAIMED_ROW := Update(QUEUED_ROW, Publishing, Start(0))
  const PUBLISHED_ROW := Update(CLAIMED_ROW, Published, Success("i", "u", 0))
  const MESSAGE := Delivery(0, 7, None)

  function At(pc: Pc): Process {
    NewEnqueuer(0, None, 0).(pc := pc)
  }

  function WorkerAt(pc: Pc): Process {
    NewWorker(0).(pc := pc)
  }

  const SENT := Store([QUEUED_ROW], multiset{MESSAGE}, [MESSAGE], [], map[], map[], map[0 := 0])
  const CLAIMED := SENT.(rows := [CLAIMED_ROW], claims := map[0 := 1])
  const UPLOADED := CLAIMED.(uploads := [0], handovers := map[0 := Handover(0, "t", MEDIA, Response("i", "u"))])
  const FINISHED := UPLOADED.(rows := [PUBLISHED_ROW])

  const QUEUEING: seq<Event> :=
    [Create(0, "p", "t"), EnqueueAt(0, None, 0), Act(0, CHOICE), Act(0, CHOICE), Act(0, CHOICE)]
  const CLAIMING: seq<Event> := [Deliver(MESSAGE), Act(1, CHOICE), Act(1, CHOICE), Act(1, CHOICE)]
  const FINISHING: seq<Event> := [Act(1, CHOICE), Act(1, CHOICE), Act(0, CHOICE)]

  lemma Step(events: seq<Event>, s: State, t: State)
    requires events != [] && Possible(s, events[0]) && Run(Apply(s, events[0]), events[1..], t)
    ensures Run(s, events, t)
  {
  }

  lemma Queues()
    ensures Run(INITIAL, QUEUEING, State(SENT, [At(Unqueueing)]))
  {
    var t := State(SENT, [At(Unqueueing)]);
    var s1 := State(EMPTY.(rows := [PENDING_ROW]), []);
    var s2 := s1.(processes := [At(Reading)]);
    var s3 := s1.(processes := [At(Queueing)]);
    var s4 := State(EMPTY.(rows := [QUEUED_ROW], queuers := map[0 := 0]), [At(Dispatching(QUEUED_ROW, 7))]);
    assert Apply(INITIAL, QUEUEING[0]) == s1;
    assert Apply(s1, QUEUEING[1]) == s2;
    assert Apply(s2, QUEUEING[2]) == s3;
    assert Apply(s3, QUEUEING[3]) == s4;
    assert Apply(s4, QUEUEING[4]) == t;
    assert QUEUEING[5..] == [];
    Step(QUEUEING[4..], s4, t);
    Step(QUEUEING[3..], s3, t);
    Step(QUEUEING[2..], s2, t);
    Step(QUEUEING[1..], s1, t);
    Step(QUEUEING, INITIAL, t);
  }

  lemma Claims()
    ensures Run(State(SENT, [At(Unqueueing)]), CLAIMING, State(CLAIMED, [At(Unqueueing), WorkerAt(Calling(CLAIMED_ROW, MEDIA))]))
  {
    var k := At(Unqueueing);
    var s0 := State(SENT, [k]);
    var s1 := State(SENT, [k, WorkerAt(Reading)]);
    var s2 := State(SENT, [k, WorkerAt(Claiming)]);
    var s3 := State(CLAIMED, [k, WorkerAt(Loading(CLAIMED_ROW))]);
    var t := State(CLAIMED, [k, WorkerAt(Calling(CLAIMED_ROW, MEDIA))]);
    assert Apply(s0, CLAIMING[0]) == s1;
    assert Apply(s1, CLAIMING[1]) == s2;
    assert Apply(s2, CLAIMING[2]) == s3;
    assert Apply(s3, CLAIMING[3]) == t;
    assert CLAIMING[4..] == [];
    Step(CLAIMING[3..], s3, t);
    Step(CLAIMING[2..], s2, t);
    Step(CLAIMING[1..], s1, t);
    Step(CLAIMING, s0, t);
  }

  lemma Finishes()
    ensures Run(State(CLAIMED, [At(Unqueueing), WorkerAt(Calling(CLAIMED_ROW, MEDIA))]), FINISHING,
                State(FINISHED, [At(Done(Raised(App(QueueFailed)))), WorkerAt(Done(Returned(PUBLISHED_ROW)))]))
  {
    var k := At(Unqueueing);
    var s0 := State(CLAIMED, [k, WorkerAt(Calling(CLAIMED_ROW, MEDIA))]);
    var s1 := State(UPLOADED, [k, WorkerAt(Completing("i", "u"))]);
    var s2 := State(FINISHED, [k, WorkerAt(Done(Returned(PUBLISHED_ROW)))]);
    var t := State(FINISHED, [At(Done(Raised(App(QueueFailed)))), WorkerAt(Done(Returned(PUBLISHED_ROW)))]);
    assert Apply(s0, FINISHING[0]) == s1;
    assert Apply(s1, FINISHING[1]) == s2;
    assert Apply(s2, FINISHING[2]) == t;
    assert FINISHING[3..] == [];
    Step(FINISHING[2..], s2, t);
    Step(FINISHING[1..], s1, t);
    Step(FINISHING, s0, t);
  }

  ghost predicate AllHealthy(events: seq<Event>) {
    forall i :: 0 <= i < |events| ==> Healthy(events[i])
  }

  lemma Joined(a: seq<Event>, s: State, b: seq<Event>, t: State, c: seq<Event>, u: State)
    requires Run(INITIAL, a, s) && Run(s, b, t) && Run(t, c, u)
    requires AllHealthy(a) && AllHealthy(b) && AllHealthy(c)
    ensures PublishingClaims.CalmlyReachable(u)
  {
    RunThen(INITIAL, a, s, b, t);
    RunThen(INITIAL, a + b, t, c, u);
    assert AllHealthy(a + b + c);
  }

  /** A queue error does not mean that the row is FAILED: the broker may raise after it took
      the message, and a worker may then publish. */
  lemma QueueErrorButPublished() returns (s: State)
    ensures PublishingClaims.CalmlyReachable(s) && |s.processes| > 0
    ensures s.processes[0].kind.Enqueuer? && s.processes[0].pc == Done(Raised(App(QueueFailed)))
    ensures PublishingClaims.Is(s.store, s.processes[0].target, Published)
  {
    var queued := State(SENT, [At(Unqueueing)]);
    var claimed := State(CLAIMED, [At(Unqueueing), WorkerAt(Calling(CLAIMED_ROW, MEDIA))]);
    s := State(FINISHED, [At(Done(Raised(App(QueueFailed)))), WorkerAt(Done(Returned(PUBLISHED_ROW)))]);
    Queues();
    Claims();
    Finishes();
    Joined(QUEUEING, queued, CLAIMING, claimed, FINISHING, s);
  }
}
