/** What a running service touches: the table, the broker and the provider, shared with every
    other process. Between two calls of a service the others take any steps they like. */
module PublishingWorld {
  import opened Values
  import opened Sequences
  import opened PublishingErrors
  import opened Publications
  import opened PublishingProtocol
  import PublishingSafety

  /** Steps that leave process me alone. */
  predicate ByOthers(events: seq<Event>, me: nat) {
    forall i :: 0 <= i < |events| ==>
      (events[i].Act? ==> events[i].who != me) && (events[i].Crash? ==> events[i].who != me)
  }

  lemma {:induction false} OthersLeaveAlone(s: State, events: seq<Event>, t: State, me: nat)
    requires Run(s, events, t) && ByOthers(events, me) && me < |s.processes|
    ensures me < |t.processes| && t.processes[me] == s.processes[me]
    decreases |events|
  {
    if events != [] {
      assert ByOthers(events[1..], me);
      OthersLeaveAlone(Apply(s, events[0]), events[1..], t, me);
    }
  }

  /** An exception of a repository call, seen by its caller. */
  function ReplyAs(r: Result<Option<Row>, Problem>): Reply {
    if r.Ok? then Got(r.value) else Threw
  }

  /** A row comes back under the id by which it was asked for. */
  lemma OwnId(trace: seq<Event>, s: State, id: nat)
    requires Run(INITIAL, trace, s)
    ensures id < |s.store.rows| ==> s.store.rows[id].id == id
  {
    assert PublishingSafety.Reachable(s);
    PublishingSafety.ReachableOk(s);
  }

  class World {
    const repository: PublicationRepository
    const choices: nat -> Choice
    const others: (nat, State) -> seq<Event>
    var clock: nat
    var broker: multiset<Delivery>
    var dispatched: seq<Delivery>
    var uploads: seq<nat>
    var handovers: map<nat, Handover>
    var claims: map<nat, nat>
    var queuers: map<nat, nat>
    var processes: seq<Process>
    ghost var trace: seq<Event>

    constructor (choices: nat -> Choice, others: (nat, State) -> seq<Event>)
      ensures Valid() && S() == INITIAL && this.choices == choices && this.others == others && fresh(repository)
    {
      this.choices, this.others := choices, others;
      repository := new PublicationRepository();
      clock, broker, dispatched, uploads, handovers, claims, queuers, processes := 0, multiset{}, [], [], map[], map[], map[], [];
      trace := [];
    }

    function S(): State
      reads this, repository
    {
      State(Store(repository.rows, broker, dispatched, uploads, handovers, claims, queuers), processes)
    }

    /** What the next call depends on beside the shared state. */
    function Now(): Choice
      reads this
    {
      choices(clock)
    }

    /** The world has been reached by a run of the protocol. */
    ghost predicate Valid()
      reads this, repository
    {
      Run(INITIAL, trace, S())
    }

    /** The others always take steps that they can take. */
    ghost predicate Fair(me: nat) {
      forall k, s: State :: CanRun(s, others(k, s)) && ByOthers(others(k, s), me)
    }

    /** Process me is running. */
    ghost predicate Running(me: nat)
      reads this, repository
    {
      Valid() && Fair(me) && me < |processes| && Sensible(processes[me]) && processes[me].alive
    }

    /** Process me is running and stands at k. */
    ghost predicate At(me: nat, k: Process)
      reads this, repository
    {
      Running(me) && processes[me] == k
    }

    /** Process me is about to make this call. */
    ghost predicate Calls(me: nat, call: Call)
      reads this, repository
    {
      Running(me) && !processes[me].pc.Done? && CallOf(processes[me], Now()) == call
    }

    /** A request or a message brings in a process. */
    method Arrive(e: Event, ghost k: Process) returns (me: nat)
      requires Valid() && Possible(S(), e) && Fair(|processes|) && k.alive && Sensible(k)
      requires Apply(S(), e) == S().(processes := processes + [k])
      modifies this
      ensures me == |old(processes)| && At(me, k)
      ensures trace == old(trace) + [e] && clock == old(clock) && S().store == old(S()).store
    {
      var s := Apply(S(), e);
      RunOne(INITIAL, trace, S(), e);
      me, processes, trace := |processes|, s.processes, trace + [e];
    }

    /** The others move, until process me makes its call. */
    method Interfere(me: nat)
      requires Running(me)
      modifies this, repository
      ensures At(me, old(processes[me])) && clock == old(clock) && old(trace) <= trace
    {
      var events := others(clock, S());
      var s := Reach(S(), events);
      ghost var before := S();
      OthersLeaveAlone(before, events, s, me);
      RunThen(INITIAL, trace, before, events, s);
      repository.rows := s.store.rows;
      broker, dispatched, uploads, handovers := s.store.broker, s.store.dispatched, s.store.uploads, s.store.handovers;
      claims, queuers, processes := s.store.claims, s.store.queuers, s.processes;
      trace := trace + events;
    }

    /** Process me has made its call and goes on with the reply. */
    method Note(me: nat, ghost before: State, reply: Reply)
      requires Run(INITIAL, trace, before) && Possible(before, Act(me, Now())) && Fair(me)
      requires S() == State(ActStore(before, me, Now()), before.processes)
      requires reply == ReplyOf(before.store, CallOf(before.processes[me], Now()), Now())
      modifies this
      ensures At(me, Resume(before.processes[me], reply, old(Now()))) && clock == old(clock) + 1
      ensures repository.rows == old(repository.rows) && old(trace) <= trace
    {
      RunOne(INITIAL, trace, before, Act(me, Now()));
      trace := trace + [Act(me, Now())];
      processes := processes[me := Resume(processes[me], reply, Now())];
      clock := clock + 1;
    }

    method GetById(me: nat, id: nat) returns (r: Result<Option<Row>, Problem>)
      requires Calls(me, Read(id))
      modifies this, repository
      ensures At(me, Resume(old(processes[me]), ReplyAs(r), old(Now()))) && clock == old(clock) + 1 && old(trace) <= trace
      ensures r.Err? ==> r.error.Other?
      ensures r.Ok? && r.value.Some? ==> r.value.value.id == id
    {
      Interfere(me);
      OwnId(trace, S(), id);
      ghost var before := S();
      if Now().fault.Works? {
        var row := repository.GetById(id);
        r := Ok(row);
      } else {
        r := Err(Other);
      }
      Note(me, before, ReplyAs(r));
    }

    method TransitionStatus(me: nat, id: nat, from: Status, to: Status, w: Write)
      returns (r: Result<Option<Row>, Problem>)
      requires Calls(me, Transition(id, from, to, w))
      modifies this, repository
      ensures At(me, Resume(old(processes[me]), ReplyAs(r), old(Now()))) && clock == old(clock) + 1 && old(trace) <= trace
      ensures r.Err? ==> r.error.Other?
      ensures r.Ok? && r.value.Some? ==> r.value.value.id == id
    {
      Interfere(me);
      OwnId(trace, S(), id);
      ghost var before := S();
      r := Err(Other);
      if !Now().fault.Before? {
        var row := repository.TransitionStatus(id, from, to, w);
        if row.Some? && to.Publishing? {
          claims := claims[id := me];
        } else if row.Some? && to.Queued? {
          queuers := queuers[id := me];
        }
        if Now().fault.Works? {
          r := Ok(row);
        }
      }
      Note(me, before, ReplyAs(r));
    }

    method Insert(me: nat, key: Key, title: string) returns (r: Result<Option<Row>, Problem>)
      requires Calls(me, Call.Insert(key, title))
      modifies this, repository
      ensures At(me, Resume(old(processes[me]), ReplyAs(r), old(Now()))) && clock == old(clock) + 1 && old(trace) <= trace
    {
      Interfere(me);
      ghost var before := S();
      r := Err(Other);
      if !Now().fault.Before? {
        var row := repository.Insert(key, title);
        if Now().fault.Works? {
          r := Ok(row);
        }
      }
      Note(me, before, ReplyAs(r));
    }

    method GetAutomatic(me: nat, key: Key) returns (r: Result<Option<Row>, Problem>)
      requires Calls(me, Search(key))
      modifies this, repository
      ensures At(me, Resume(old(processes[me]), ReplyAs(r), old(Now()))) && clock == old(clock) + 1 && old(trace) <= trace
    {
      Interfere(me);
      ghost var before := S();
      if Now().fault.Works? {
        var row := repository.GetAutomatic(key);
        r := Ok(row);
      } else {
        r := Err(Other);
      }
      Note(me, before, ReplyAs(r));
    }

    /** A call of the asset, execution or artifact repository; c is what it found. */
    method Consult(me: nat, call: Call) returns (raised: bool, c: Choice)
      requires Calls(me, call) && (call.FetchAsset? || call.FetchExecution? || call.ListArtifacts?)
      modifies this, repository
      ensures c == old(Now()) && clock == old(clock) + 1 && old(trace) <= trace
      ensures At(me, Resume(old(processes[me]), if raised then Threw else Got(None), c))
    {
      Interfere(me);
      c := Now();
      raised := !c.fault.Works?;
      Note(me, S(), if raised then Threw else Got(None));
    }

    /** provider.publish. */
    method Upload(me: nat, id: nat, asset: nat, title: string, media: Asset) returns (a: Answer)
      requires Calls(me, Call.Upload(id, asset, title, media))
      modifies this, repository
      ensures a == old(Now()).answer && clock == old(clock) + 1 && old(trace) <= trace
      ensures At(me, Resume(old(processes[me]), Got(None), old(Now())))
    {
      Interfere(me);
      ghost var before := S();
      a := Now().answer;
      uploads, handovers := uploads + [id], handovers[id := Handover(asset, title, media, a)];
      Note(me, before, Got(None));
    }

    /** The broker's send_task. */
    method Send(me: nat, m: Delivery) returns (returned: Option<nat>)
      requires Calls(me, Call.Send(m))
      modifies this, repository
      ensures returned == old(Now()).sending.returned && clock == old(clock) + 1 && old(trace) <= trace
      ensures At(me, Resume(old(processes[me]), Got(None), old(Now())))
    {
      Interfere(me);
      ghost var before := S();
      if Now().sending.delivered {
        broker, dispatched := broker + multiset{m}, dispatched + [m];
      }
      returned := Now().sending.returned;
      Note(me, before, Got(None));
    }
  }
}
