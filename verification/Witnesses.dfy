/** Runs that show what the protocol does not promise, and that bounds are met. */
module Witnesses {
  import opened Common
  import opened Protocol
  import opened Steps
  import opened Counting
  import opened Overlap

  const A: AgentId := "a"
  const MSG := Message(A, 1, Some(Envelope(A, "e")))
  const EVENT := Key(A, "e")

  lemma Go(s: State, a: Action) returns (s': State)
    requires Reachable(s) && Enabled(s, a)
    ensures s' == Apply(s, a) && Reachable(s')
  {
    ReachableStep(s, a);
    s' := Apply(s, a);
  }

  /** A query of the free slots makes the agent's entry. */
  lemma GoPoll(s: State, a: AgentId, g: Gen) returns (s': State)
    requires Reachable(s) && a in s.registry && s.registry[a].enabled && a !in s.states && g !in s.sems && s.polls == map[]
    ensures Reachable(s')
    ensures var c := s.registry[a].conc;
      s' == s.(sems := s.sems[g := Semaphore(a, c, c)], states := s.states[a := AgentState(g, {})])
  {
    hide Reachable, Apply, Enabled;
    StartPollIs(s, 0, a);
    var s1 := Go(s, StartPoll(0, a));
    PollIs(s1, 0, g);
    s' := Go(s1, Poll(0, g));
    assert s'.polls == s.polls;
  }

  lemma Hand(s: State, t: TaskId, q: nat) returns (s': State)
    requires Reachable(s) && Enabled(s, Deliver(t, q))
    ensures Reachable(s') && q in s.slots
    ensures var m := s.slots[q].msg;
      s' == s.(slots := s.slots[q := Slot(m, Pending)],
               tasks := s.tasks[t := Task(m.dest, EventOf(m), q, Received, 0, 0, Undecided)])
  {
    hide Reachable;
    s' := Go(s, Deliver(t, q));
    assert s'.log == s.log;
  }

  /** One agent, one semaphore, one message published and delivered to task 0. */
  function Started(conc: nat): State {
    State(1, map[A := Config(conc, true)], map[A := AgentState(0, {})], map[], map[0 := Semaphore(A, conc, conc)],
          map[0 := Task(A, "e", 0, Received, 0, 0, Undecided)], {}, map[0 := Slot(MSG, Pending)],
          map[A := conc], false, [Configured(A, conc)])
  }

  /** The agent is configured, its consumer bound and its entry made. */
  function Ready(conc: nat): State {
    Started(conc).(tasks := map[], slots := map[])
  }

  lemma ConfiguredReachable(conc: nat)
    requires conc >= 1
    ensures Reachable(Init(1).(registry := map[A := Config(conc, true)], log := [Configured(A, conc)]))
  {
    var s := Init(1);
    assert Reachable(s) by { assert Legal(s, []) && After(s, []) == s; }
    hide Reachable;
    var s1 := Go(s, Configure(A, Some(Config(conc, true))));
  }

  lemma ReadyReachable(conc: nat)
    requires conc >= 1
    ensures Reachable(Ready(conc))
  {
    ConfiguredReachable(conc);
    hide Reachable;
    var s1 := Init(1).(registry := map[A := Config(conc, true)], log := [Configured(A, conc)]);
    var s2 := Go(s1, Bind(A, conc));
    assert s2.log == s1.log;
    var s3 := GoPoll(s2, A, 0);
    assert s3.sems == Ready(conc).sems && s3.log == Ready(conc).log;
  }

  lemma PublishedReachable(conc: nat)
    requires conc >= 1
    ensures Reachable(Ready(conc).(slots := map[0 := Slot(MSG, Queued)]))
  {
    ReadyReachable(conc);
    hide Reachable;
    var s := Go(Ready(conc), Publish(0, MSG));
    assert s.log == Ready(conc).log;
  }

  lemma FirstInLine(conc: nat)
    requires conc >= 1
    ensures Enabled(Ready(conc).(slots := map[0 := Slot(MSG, Queued)]), Deliver(0, 0))
  {
    var s := Ready(conc).(slots := map[0 := Slot(MSG, Queued)]);
    assert Outstanding(s.slots, A) == {};
    assert NextInLine(s, 0);
  }

  lemma StartedReachable(conc: nat)
    requires conc >= 1
    ensures Reachable(Started(conc))
  {
    PublishedReachable(conc);
    hide Reachable, Enabled, Apply;
    var s := Ready(conc).(slots := map[0 := Slot(MSG, Queued)]);
    FirstInLine(conc);
    var s' := Hand(s, 0, 0);
    assert s'.slots == Started(conc).slots && s'.tasks == Started(conc).tasks;
  }

  function Redelivered(s: State, t: TaskId, q: nat): State
    requires q in s.slots
  {
    var m := s.slots[q].msg;
    s.(tasks := s.tasks[t := Task(m.dest, EventOf(m), q, Received, 0, 0, Undecided)])
  }

  lemma Redeliver(s: State, t: TaskId, q: nat) returns (s': State)
    requires Reachable(s) && !s.draining && t !in s.tasks && q in s.slots && s.slots[q].fate == Pending
    ensures Reachable(s') && s' == Redelivered(s, t, q)
  {
    hide Reachable;
    s' := Hand(s, t, q);
    assert s'.slots == s.slots;
  }

  /** The task can take a permit of its agent's current entry. */
  predicate CanArm(s: State, t: TaskId) {
    && At(s, t, Received) && s.tasks[t].seqNo in s.slots
    && (var k, m := s.tasks[t], s.slots[s.tasks[t].seqNo].msg;
        && m.dest == k.agent && Verdict(s, m) == Undecided && k.outcome == Undecided
        && k.agent in s.states && s.states[k.agent].permits in s.sems
        && s.sems[s.states[k.agent].permits].free > 0
        && k.Id() !in s.completed)
  }

  function HasArmed(s: State, t: TaskId): State
    requires CanArm(s, t)
  {
    var k := s.tasks[t];
    var g := s.states[k.agent].permits;
    s.(tasks := s.tasks[t := k.(pc := Armed, conc := s.registry[k.agent].conc, gen := g)],
       sems := s.sems[g := s.sems[g].(free := s.sems[g].free - 1)])
  }

  /** Past the gates and in the queue for a permit. */
  function InQueue(s: State, t: TaskId): State
    requires CanArm(s, t)
  {
    var k := s.tasks[t];
    s.(tasks := s.tasks[t := k.(pc := Waiting, conc := s.registry[k.agent].conc, gen := s.states[k.agent].permits)])
  }

  lemma Enqueue(s: State, t: TaskId) returns (s': State)
    requires Reachable(s) && CanArm(s, t)
    ensures Reachable(s') && s' == InQueue(s, t)
  {
    hide Reachable, InFlight, NextInLine;
    var s1 := Go(s, Check(t));
    s' := Go(s1, Ensure(t, 0));
    assert s'.tasks == InQueue(s, t).tasks && s'.log == s.log;
  }

  lemma Arm(s: State, t: TaskId) returns (s': State)
    requires Reachable(s) && CanArm(s, t)
    ensures Reachable(s') && s' == HasArmed(s, t)
  {
    hide Reachable, InFlight, NextInLine;
    var s2 := Enqueue(s, t);
    var s3 := Go(s2, Acquire(t));
    s' := Go(s3, Lookup(t, true));
    assert s'.tasks == HasArmed(s, t).tasks && s'.log == s.log;
  }

  function Claimed(s: State, t: TaskId): State
    requires At(s, t, Armed)
  {
    var k := s.tasks[t];
    s.(tasks := s.tasks[t := k.(pc := Inserted)], states := InsertInFlight(s.states, k.agent, k.event, k.gen))
  }

  lemma Claim(s: State, t: TaskId) returns (s': State)
    requires Reachable(s) && At(s, t, Armed) && !InFlight(s.states, s.tasks[t].Id())
    ensures Reachable(s') && s' == Claimed(s, t)
  {
    hide Reachable, Apply, Enabled, InFlight, InsertInFlight;
    InsertIs(s, t);
    s' := Go(s, Insert(t));
  }

  function Launched(s: State, t: TaskId): State
    requires At(s, t, Armed)
  {
    var k := s.tasks[t];
    s.(tasks := s.tasks[t := k.(pc := Running)], states := InsertInFlight(s.states, k.agent, k.event, k.gen),
       log := s.log + [HandlerStarted(k.Id(), k.seqNo, t)])
  }

  lemma Launch(s: State, t: TaskId) returns (s': State)
    requires Reachable(s) && At(s, t, Armed) && !InFlight(s.states, s.tasks[t].Id())
    ensures Reachable(s') && s' == Launched(s, t)
  {
    hide Reachable, Apply, Enabled, InFlight, InsertInFlight;
    var s1 := Claim(s, t);
    SpawnIs(s1, t, true);
    s' := Go(s1, Spawn(t, true));
    assert s'.tasks == Launched(s, t).tasks;
  }

  /** Exit, record and remove, up to the ack. */
  function Finished(s: State, t: TaskId): State
    requires At(s, t, Running)
  {
    var k := s.tasks[t];
    s.(tasks := s.tasks[t := k.(pc := Resolving, outcome := Acked)], states := RemoveInFlight(s.states, k.agent, k.event),
       completed := s.completed + {k.Id()}, log := s.log + [HandlerExited(k.Id(), t)])
  }

  lemma Finish(s: State, t: TaskId) returns (s': State)
    requires Reachable(s) && At(s, t, Running)
    ensures Reachable(s') && s' == Finished(s, t)
  {
    hide Reachable, Apply, Enabled, RemoveInFlight;
    ExitIs(s, t);
    var s1 := Go(s, Exit(t));
    MarkIs(s1, t, true);
    var s2 := Go(s1, Mark(t, true));
    RemoveIs(s2, t);
    s' := Go(s2, Remove(t));
    assert s'.tasks == Finished(s, t).tasks && s'.log == Finished(s, t).log;
  }

  /** A handler is running when a change is applied. */
  function UnderWay(): State {
    var s := Launched(HasArmed(Started(2), 0), 0);
    s.(states := map[A := AgentState(1, {})], sems := s.sems[1 := Semaphore(A, 2, 2)], log := s.log + [ChangeApplied(A)])
  }

  lemma OneRunning() returns (s: State)
    ensures Reachable(s) && s == Launched(HasArmed(Started(2), 0), 0)
  {
    hide Reachable;
    StartedReachable(2);
    s := Arm(Started(2), 0);
    s := Launch(s, 0);
  }

  lemma UnderWayReachable()
    ensures Reachable(UnderWay())
  {
    hide Reachable, InFlight, NextInLine, Verdict;
    var s1 := OneRunning();
    var s2 := Go(s1, ApplyChange(A));
    assert s2.log == UnderWay().log;
    var s3 := GoPoll(s2, A, 1);
    assert s3.log == s2.log && s3.sems == UnderWay().sems && s3.states == UnderWay().states;
  }

  /** A change can be safe and can be unsafe, for the same message of one agent. */
  lemma ChangeSafeAndUnsafe() returns (before: State, during: State)
    ensures Reachable(before) && ChangeIsSafe(before, EVENT)
    ensures Reachable(during) && !ChangeIsSafe(during, EVENT)
  {
    hide Reachable, ChangeIsSafe, Num;
    StartedReachable(2);
    before := Started(2);
    NumNone(before.tasks, Window(EVENT));
    ChangeIsSafeExactly(before, EVENT);
    during := OneRunning();
    NumUpdate(before.tasks, 0, during.tasks[0], Window(EVENT));
    assert during.tasks == before.tasks[0 := during.tasks[0]];
    ChangeIsSafeExactly(during, EVENT);
  }

  /** Two more copies of its message take the new permits. */
  lemma ChangedUnderWay() returns (s: State)
    ensures Reachable(s) && At(s, 0, Running) && At(s, 1, Armed) && At(s, 2, Armed)
    ensures s.tasks[0].Id() == s.tasks[1].Id() == s.tasks[2].Id() == EVENT
    ensures s.tasks[1].seqNo == s.tasks[2].seqNo == 0
    ensures s.states == map[A := AgentState(1, {})]
    ensures s.log == [Configured(A, 2), HandlerStarted(EVENT, 0, 0), ChangeApplied(A)]
  {
    UnderWayReachable();
    hide Reachable;
    s := Redeliver(UnderWay(), 1, 0);
    s := Redeliver(s, 2, 0);
    s := Arm(s, 1);
    s := Arm(s, 2);
  }

  /** "Between two changes handlers of an event do not overlap" fails when a change
      found the event in flight: the old task's remove takes away the new task's
      entry, and a third copy starts beside it.  Both started after the change. */
  lemma OverlapAfterChange() returns (s: State)
    ensures Reachable(s) && At(s, 1, Running) && At(s, 2, Running)
    ensures s.tasks[1].Id() == s.tasks[2].Id() == EVENT
    ensures s.log == [Configured(A, 2), HandlerStarted(EVENT, 0, 0), ChangeApplied(A), HandlerStarted(EVENT, 0, 1),
                      HandlerExited(EVENT, 0), HandlerStarted(EVENT, 0, 2)]
  {
    hide Reachable;
    s := ChangedUnderWay();
    s := Launch(s, 1);
    s := Finish(s, 0);
    s := Launch(s, 2);
  }

  /** An entry made after a change can carry the old semaphore: a task that took
      its permit before the change puts it back. */
  lemma OldSemaphoreReturns() returns (s: State)
    ensures Reachable(s) && A in s.registry && s.registry[A].conc == 3
    ensures A in s.states && s.states[A].permits in s.sems && s.sems[s.states[A].permits].capacity == 1
    ensures exists i :: 0 <= i < |s.log| && s.log[i] == ChangeApplied(A)
  {
    hide Reachable, Apply, Enabled;
    StartedReachable(1);
    s := Arm(Started(1), 0);
    ConfigureIs(s, A, Config(3, true));
    s := Go(s, Configure(A, Some(Config(3, true))));
    ApplyChangeIs(s, A);
    s := Go(s, ApplyChange(A));
    assert s.log == [Configured(A, 1), Configured(A, 3), ChangeApplied(A)];
    assert s.log[2] == ChangeApplied(A);
    s := Launch(s, 0);
    assert s.log[2] == ChangeApplied(A);
  }

  const LATER := Message(A, 1, Some(Envelope(A, "f")))

  /** The acker is called and the permit given back. */
  function HasSettled(s: State, t: TaskId): State
    requires At(s, t, Resolving) && s.tasks[t].seqNo in s.slots && s.tasks[t].gen in s.sems
  {
    var k := s.tasks[t];
    s.(tasks := s.tasks[t := k.(pc := Done)],
       slots := s.slots[k.seqNo := s.slots[k.seqNo].(fate := Settled(k.outcome))],
       sems := s.sems[k.gen := s.sems[k.gen].(free := s.sems[k.gen].free + 1)],
       log := s.log + [Resolved(k.agent, t, k.outcome)])
  }

  lemma Settle(s: State, t: TaskId) returns (s': State)
    requires Reachable(s) && At(s, t, Resolving) && s.tasks[t].seqNo in s.slots && s.tasks[t].gen in s.sems
    requires s.slots[s.tasks[t].seqNo].fate == Pending
    ensures Reachable(s') && s' == HasSettled(s, t)
  {
    hide Reachable;
    var s1 := Go(s, Resolve(t, true));
    s' := Go(s1, Release(t));
    assert s'.tasks == HasSettled(s, t).tasks && s'.log == HasSettled(s, t).log;
  }

  function Failed(s: State, t: TaskId): State
    requires At(s, t, Armed)
  {
    var k := s.tasks[t];
    s.(tasks := s.tasks[t := k.(pc := Resolving, outcome := Termed(Unspawnable))],
       states := RemoveInFlight(InsertInFlight(s.states, k.agent, k.event, k.gen), k.agent, k.event),
       log := s.log + [HandlerNotSpawned(k.Id(), k.seqNo)])
  }

  lemma Fail(s: State, t: TaskId) returns (s': State)
    requires Reachable(s) && At(s, t, Armed) && !InFlight(s.states, s.tasks[t].Id())
    ensures Reachable(s') && s' == Failed(s, t)
  {
    hide Reachable, Apply, Enabled, InFlight, InsertInFlight, RemoveInFlight;
    var s1 := Claim(s, t);
    SpawnIs(s1, t, false);
    var s2 := Go(s1, Spawn(t, false));
    RemoveIs(s2, t);
    s' := Go(s2, Remove(t));
    assert s'.tasks == Failed(s, t).tasks && s'.log == Failed(s, t).log;
  }

  /** Two copies of message 0 are out, and message 1 is published behind it. */
  function Queue2(): State {
    Started(1).(tasks := Started(1).tasks[1 := Started(1).tasks[0]],
                slots := map[0 := Slot(MSG, Pending), 1 := Slot(LATER, Queued)])
  }

  lemma Queue2Reachable()
    ensures Reachable(Queue2())
  {
    hide Reachable;
    StartedReachable(1);
    var s1 := Go(Started(1), Publish(1, LATER));
    assert s1.log == Started(1).log && s1.slots == Queue2().slots;
    var s2 := Redeliver(s1, 1, 0);
    assert s2.tasks == Queue2().tasks;
  }

  /** The first copy has failed to spawn and is termed. */
  function Behind(): State {
    Queue2().(
      tasks := map[0 := Task(A, "e", 0, Done, 1, 0, Termed(Unspawnable)), 1 := Queue2().tasks[1]],
      slots := map[0 := Slot(MSG, Settled(Termed(Unspawnable))), 1 := Slot(LATER, Queued)],
      log := [Configured(A, 1), HandlerNotSpawned(EVENT, 0), Resolved(A, 0, Termed(Unspawnable))])
  }

  lemma BehindReachable()
    ensures Reachable(Behind())
  {
    hide Reachable;
    Queue2Reachable();
    var s := Arm(Queue2(), 0);
    s := Fail(s, 0);
    s := Settle(s, 0);
    assert s.tasks == Behind().tasks && s.slots == Behind().slots && s.log == Behind().log;
    assert s.states == Behind().states && s.sems == Behind().sems;
  }

  /** So message 1 is delivered, while the other copy of message 0 is stalled. */
  lemma NextDelivered() returns (s: State)
    ensures Reachable(s) && CanArm(s, 2) && s.tasks[2].agent == A && s.tasks[2].event == "f" && s.tasks[2].seqNo == 1
    ensures At(s, 1, Received) && s.tasks[1] == Started(1).tasks[0]
    ensures s.registry == Started(1).registry && s.states == Started(1).states && s.sems == Started(1).sems
    ensures s.completed == {} && s.maxBytes == 1
    ensures s.slots == map[0 := Slot(MSG, Settled(Termed(Unspawnable))), 1 := Slot(LATER, Pending)]
    ensures s.log == [Configured(A, 1), HandlerNotSpawned(EVENT, 0), Resolved(A, 0, Termed(Unspawnable))]
  {
    hide Reachable;
    BehindReachable();
    assert Outstanding(Behind().slots, A) == {};
    assert NextInLine(Behind(), 1);
    s := Hand(Behind(), 2, 1);
  }

  /** Message 1 has run, up to its ack. */
  lemma NextRan() returns (s: State)
    ensures Reachable(s) && At(s, 1, Received) && s.tasks[1] == Started(1).tasks[0] && At(s, 2, Resolving)
    ensures s.tasks[2].seqNo == 1 && s.tasks[2].gen == 0 && s.tasks[2].outcome == Acked && s.tasks[2].agent == A
    ensures s.registry == Started(1).registry && s.states == Started(1).states && s.sems == map[0 := Semaphore(A, 1, 0)]
    ensures s.completed == {Key(A, "f")} && s.maxBytes == 1
    ensures s.slots == map[0 := Slot(MSG, Settled(Termed(Unspawnable))), 1 := Slot(LATER, Pending)]
    ensures |s.log| > 3 && s.log[3] == HandlerStarted(Key(A, "f"), 1, 2)
  {
    hide Reachable, Apply, Enabled;
    s := NextDelivered();
    s := Arm(s, 2);
    s := Launch(s, 2);
    s := Finish(s, 2);
  }

  /** Message 1 is handled, and its permit is free for the stalled copy. */
  lemma NextHandled() returns (s: State)
    ensures Reachable(s) && CanArm(s, 1) && s.tasks[1].Id() == EVENT && s.tasks[1].seqNo == 0
    ensures A in s.states && s.states[A].inFlight == {}
    ensures |s.log| > 3 && s.log[3] == HandlerStarted(Key(A, "f"), 1, 2)
  {
    hide Reachable;
    s := NextRan();
    s := Settle(s, 2);
  }

  /** Serial order does need its exception: after a spawn failure message 1 starts,
      and a stalled copy of message 0 starts after it. */
  lemma SpawnFailureReorders() returns (s: State)
    ensures Reachable(s)
    ensures |s.log| > 4
    ensures s.log[3] == HandlerStarted(Key(A, "f"), 1, 2) && s.log[|s.log| - 1] == HandlerStarted(EVENT, 0, 1)
  {
    hide Reachable;
    s := NextHandled();
    s := Arm(s, 1);
    s := Launch(s, 1);
  }
}
