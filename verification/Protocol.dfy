/** The dispatch protocol as a transition system.

    One state holds everything the dispatch tasks of every agent share: the
    registry map, the dispatcher's `states` map, the semaphores, the completed
    store and the stream.  An action is one access to shared state by one task,
    or one step of the environment; any interleaving of enabled actions is a run.

    A semaphore is an `Arc` in the source, so it outlives the entry that created
    it.  It is named here by a generation number, and an entry holds a number.
 */
module Protocol {
  import opened Common

  type AgentId = string
  type EventId = string
  type TaskId = nat
  type Gen = nat
  type PollId = nat

  /** The part of a registration that dispatch looks at. */
  datatype Config = Config(conc: nat, enabled: bool)

  datatype Envelope = Envelope(agent: AgentId, event: EventId)

  /** A stream message: the agent whose subject it was published on, its size,
      and the envelope when the bytes parse as a valid one. */
  datatype Message = Message(dest: AgentId, size: nat, envelope: Option<Envelope>)

  datatype Reason = Oversize | Invalid | Mismatch | Unregistered | Disabled | Unspawnable

  datatype Outcome = Undecided | Acked | Termed(reason: Reason) | Dropped | Lost

  /** What the server knows about a message for its consumer. */
  datatype Fate = Queued | Pending | Settled(how: Outcome) | Expired

  datatype Slot = Slot(msg: Message, fate: Fate)

  /** A semaphore, with the agent whose entry created it. */
  datatype Semaphore = Semaphore(owner: AgentId, capacity: nat, free: nat)

  /** What a pull loop's query has read of the registry, before it locks the entries. */
  datatype Reading = Reading(agent: AgentId, conc: nat)

  /** The dispatcher's per-agent entry. */
  datatype AgentState = AgentState(permits: Gen, inFlight: set<EventId>)

  /** Where a dispatch task stands, named after what it did last. */
  datatype Pc =
    | Received | Checked | Waiting | Permitted | Armed | Inserted | Running | Exited | Marked
    | SpawnFailed | Rejecting | Resolving | Releasing | Done

  datatype Task = Task(agent: AgentId, event: EventId, seqNo: nat, pc: Pc, conc: nat, gen: Gen, outcome: Outcome)
  {
    function Id(): Key { Key(agent, event) }

    /** Between taking a permit and giving it back. */
    predicate Holds() {
      pc.Permitted? || BeforeStart() || Unrecorded() || pc.Marked? || pc.SpawnFailed? || pc.Resolving? || pc.Releasing?
    }

    /** Knows its semaphore. */
    predicate Ensured() { Holds() || pc == Waiting }

    /** Between its in-flight insert and its in-flight remove. */
    predicate InWindow() { pc.Inserted? || Unrecorded() || pc.Marked? || pc.SpawnFailed? }

    /** Past a lookup that did not say "completed", handler not started yet. */
    predicate BeforeStart() { pc.Armed? || pc.Inserted? }

    /** Handler started, completion not recorded yet. */
    predicate Unrecorded() { pc.Running? || pc.Exited? }
  }

  /** What the daemon reports; the history of a run.  A change applied to an agent
      is told when it finds an entry to drop, and it is such changes that are counted:
      one that finds none, as when an agent is registered, does nothing. */
  datatype Obs =
    | HandlerStarted(key: Key, seqNo: nat, task: TaskId)
    | HandlerExited(key: Key, task: TaskId)
    | LookupFailed(key: Key)
    | MarkFailed(key: Key)
    | HandlerNotSpawned(key: Key, seqNo: nat)
    | RecordPurged(key: Key)
    | ChangeApplied(agent: AgentId)
    | Configured(agent: AgentId, conc: nat)
    | Resolved(agent: AgentId, task: TaskId, outcome: Outcome)
    | MessageExpired(agent: AgentId, seqNo: nat)
    | Restarted

  datatype State = State(
    maxBytes: nat,
    registry: map<AgentId, Config>,
    states: map<AgentId, AgentState>,
    polls: map<PollId, Reading>,
    sems: map<Gen, Semaphore>,
    tasks: map<TaskId, Task>,
    completed: set<Key>,
    slots: map<nat, Slot>,
    limits: map<AgentId, nat>,
    draining: bool,
    log: seq<Obs>)

  datatype Action =
    // environment
    | Publish(seqNo: nat, msg: Message)
    | Expire(seqNo: nat)
    | Bind(agent: AgentId, limit: nat)
    | Configure(agent: AgentId, config: Option<Config>)
    | ApplyChange(agent: AgentId)
    | StartPoll(poll: PollId, agent: AgentId)
    | Poll(poll: PollId, gen: Gen)
    | Deliver(task: TaskId, seqNo: nat)
    | Purge(key: Key)
    | BeginDrain
    | Crash
    // one dispatch task
    | Check(task: TaskId)
    | Ensure(task: TaskId, gen: Gen)
    | Acquire(task: TaskId)
    | Lookup(task: TaskId, ok: bool)
    | Insert(task: TaskId)
    | Spawn(task: TaskId, ok: bool)
    | Exit(task: TaskId)
    | Mark(task: TaskId, ok: bool)
    | Remove(task: TaskId)
    | Resolve(task: TaskId, arrived: bool)
    | Release(task: TaskId)
  {
    predicate IsTaskStep() {
      Check? || Ensure? || Acquire? || Lookup? || Insert? || Spawn? || Exit? || Mark? || Remove?
      || Resolve? || Release?
    }
  }

  function Init(maxBytes: nat): State {
    State(maxBytes, map[], map[], map[], map[], map[], {}, map[], map[], false, [])
  }

  /** The gates that come before the concurrency slot, in the source's order. */
  function Verdict(s: State, msg: Message): Outcome {
    if msg.size > s.maxBytes then Termed(Oversize)
    else if msg.envelope.None? then Termed(Invalid)
    else if msg.envelope.value.agent != msg.dest then Termed(Mismatch)
    else if msg.dest !in s.registry then Termed(Unregistered)
    else if !s.registry[msg.dest].enabled then Termed(Disabled)
    else Undecided
  }

  /** The message is a valid envelope for the agent it was published to. */
  predicate Addressed(msg: Message) { msg.envelope.Some? && msg.envelope.value.agent == msg.dest }

  /** What a delivery needs to be handled, gate by gate. */
  predicate Passes(msg: Message, maxBytes: nat, registry: map<AgentId, Config>) {
    msg.size <= maxBytes && Addressed(msg) && msg.dest in registry && registry[msg.dest].enabled
  }

  /** What each reason to terminate at the gates says of the message, the first that
      applies. */
  predicate Cause(r: Reason, msg: Message, maxBytes: nat, registry: map<AgentId, Config>) {
    match r
    case Oversize => msg.size > maxBytes
    case Invalid => msg.size <= maxBytes && msg.envelope.None?
    case Mismatch => msg.size <= maxBytes && msg.envelope.Some? && msg.envelope.value.agent != msg.dest
    case Unregistered => msg.size <= maxBytes && Addressed(msg) && msg.dest !in registry
    case Disabled => msg.size <= maxBytes && Addressed(msg) && msg.dest in registry && !registry[msg.dest].enabled
    case Unspawnable => false
  }

  function EventOf(msg: Message): EventId {
    if msg.envelope.Some? then msg.envelope.value.event else ""
  }

  /** Messages of one consumer that were delivered and are not settled. */
  function Outstanding(slots: map<nat, Slot>, a: AgentId): set<nat> {
    set q | q in slots && slots[q].msg.dest == a && slots[q].fate == Pending
  }

  /** The three critical sections on the `states` map. */
  function EnsureEntry(states: map<AgentId, AgentState>, a: AgentId, g: Gen): map<AgentId, AgentState> {
    if a in states then states else states[a := AgentState(g, {})]
  }

  function InsertInFlight(states: map<AgentId, AgentState>, a: AgentId, e: EventId, g: Gen): map<AgentId, AgentState> {
    var st := EnsureEntry(states, a, g);
    st[a := st[a].(inFlight := st[a].inFlight + {e})]
  }

  function RemoveInFlight(states: map<AgentId, AgentState>, a: AgentId, e: EventId): map<AgentId, AgentState> {
    if a in states then states[a := states[a].(inFlight := states[a].inFlight - {e})] else states
  }

  predicate InFlight(states: map<AgentId, AgentState>, k: Key) {
    k.agent in states && k.event in states[k.agent].inFlight
  }

  /** A new semaphore exists only when the entry did not. */
  function EnsureSem(s: State, a: AgentId, conc: nat, g: Gen): map<Gen, Semaphore> {
    if a in s.states then s.sems else s.sems[g := Semaphore(a, conc, conc)]
  }

  /** A consumer is bound with the concurrency of some configuration the agent had. */
  predicate Enabled(s: State, a: Action) {
    match a
    case Publish(q, m) => forall p :: p in s.slots ==> p < q
    case Expire(q) => q in s.slots && (s.slots[q].fate.Queued? || s.slots[q].fate.Pending?)
    case Bind(ag, n) => Configured(ag, n) in s.log
    case Configure(_, c) => c.Some? ==> c.value.conc >= 1
    case ApplyChange(_) => true
    case StartPoll(p, ag) => p !in s.polls && ag in s.registry && s.registry[ag].enabled
    case Poll(p, g) => p in s.polls && (s.polls[p].agent in s.states || g !in s.sems)
    case Deliver(t, q) =>
      && !s.draining && t !in s.tasks && q in s.slots
      && (s.slots[q].fate == Pending || (s.slots[q].fate == Queued && NextInLine(s, q)))
    case Purge(k) => k in s.completed
    case BeginDrain => true
    case Crash => true
    case Ensure(t, g) => At(s, t, Checked) && (s.tasks[t].agent in s.states || g !in s.sems)
    case Acquire(t) => At(s, t, Waiting) && s.tasks[t].gen in s.sems && s.sems[s.tasks[t].gen].free > 0
    case Resolve(t, _) => At(s, t, Rejecting) || At(s, t, Resolving)
    case Remove(t) => At(s, t, Marked) || At(s, t, SpawnFailed)
    case Check(t) => At(s, t, Received) && s.tasks[t].seqNo in s.slots
    case Lookup(t, _) => At(s, t, Permitted)
    case Insert(t) => At(s, t, Armed)
    case Spawn(t, _) => At(s, t, Inserted)
    case Exit(t) => At(s, t, Running)
    case Mark(t, _) => At(s, t, Exited)
    case Release(t) => At(s, t, Releasing) && s.tasks[t].gen in s.sems
  }

  predicate At(s: State, t: TaskId, pc: Pc) { t in s.tasks && s.tasks[t].pc == pc }

  /** The server hands out a consumer's messages in stream order, and none
      while the consumer's outstanding messages reach its limit. */
  predicate NextInLine(s: State, q: nat)
    requires q in s.slots
  {
    var a := s.slots[q].msg.dest;
    && a in s.limits && |Outstanding(s.slots, a)| < s.limits[a]
    && forall p :: p in s.slots && p < q && s.slots[p].msg.dest == a ==> s.slots[p].fate != Queued
  }

  /** The acting task after a task step. */
  function TaskAfter(s: State, a: Action): Task
    requires a.IsTaskStep() && Enabled(s, a)
  {
    var k := s.tasks[a.task];
    match a
    case Check(t) =>
      var m := s.slots[k.seqNo].msg;
      var v := Verdict(s, m);
      if v.Undecided? then k.(pc := Checked, conc := s.registry[m.dest].conc)
      else k.(pc := Rejecting, outcome := v)
    case Ensure(t, g) => k.(pc := Waiting, gen := EnsureEntry(s.states, k.agent, g)[k.agent].permits)
    case Acquire(t) => k.(pc := Permitted)
    case Lookup(t, ok) =>
      if ok && k.Id() in s.completed then k.(pc := Resolving, outcome := Acked) else k.(pc := Armed)
    case Insert(t) =>
      if InFlight(s.states, k.Id()) then k.(pc := Releasing, outcome := Dropped) else k.(pc := Inserted)
    case Spawn(t, ok) => if ok then k.(pc := Running) else k.(pc := SpawnFailed)
    case Exit(t) => k.(pc := Exited)
    case Mark(t, _) => k.(pc := Marked)
    case Remove(t) =>
      k.(pc := Resolving, outcome := if k.pc == Marked then Acked else Termed(Unspawnable))
    case Resolve(t, _) => if k.pc == Rejecting then k.(pc := Done) else k.(pc := Releasing)
    case Release(t) => k.(pc := Done)
  }

  /** The shared state after a task step, apart from the acting task and the log. */
  function SharedAfter(s: State, a: Action): State
    requires a.IsTaskStep() && Enabled(s, a)
  {
    var k := s.tasks[a.task];
    match a
    case Ensure(t, g) =>
      s.(sems := EnsureSem(s, k.agent, k.conc, g), states := EnsureEntry(s.states, k.agent, g))
    case Acquire(t) =>
      var sem := s.sems[k.gen];
      s.(sems := s.sems[k.gen := sem.(free := sem.free - 1)])
    case Insert(t) =>
      if InFlight(s.states, k.Id()) then s
      else s.(states := InsertInFlight(s.states, k.agent, k.event, k.gen))
    case Mark(t, ok) => if ok then s.(completed := s.completed + {k.Id()}) else s
    case Remove(t) => s.(states := RemoveInFlight(s.states, k.agent, k.event))
    case Resolve(t, arrived) =>
      if arrived && k.seqNo in s.slots && s.slots[k.seqNo].fate == Pending
      then s.(slots := s.slots[k.seqNo := s.slots[k.seqNo].(fate := Settled(k.outcome))])
      else s
    case Release(t) =>
      var sem := s.sems[k.gen];
      s.(sems := s.sems[k.gen := sem.(free := sem.free + 1)])
    case _ => s
  }

  function EnvironmentAfter(s: State, a: Action): State
    requires !a.IsTaskStep() && Enabled(s, a)
  {
    match a
    case Publish(q, m) => s.(slots := s.slots[q := Slot(m, Queued)])
    case Expire(q) => s.(slots := s.slots[q := s.slots[q].(fate := Expired)])
    case Bind(ag, n) => s.(limits := s.limits[ag := n])
    case Configure(ag, c) =>
      s.(registry := if c.Some? then s.registry[ag := c.value] else s.registry - {ag})
    case ApplyChange(ag) => s.(states := s.states - {ag})
    case StartPoll(p, ag) => s.(polls := s.polls[p := Reading(ag, s.registry[ag].conc)])
    case Poll(p, g) =>
      var r := s.polls[p];
      s.(sems := EnsureSem(s, r.agent, r.conc, g), states := EnsureEntry(s.states, r.agent, g), polls := s.polls - {p})
    case Deliver(t, q) =>
      var m := s.slots[q].msg;
      s.(slots := s.slots[q := s.slots[q].(fate := Pending)],
         tasks := s.tasks[t := Task(m.dest, EventOf(m), q, Received, 0, 0, Undecided)])
    case Purge(k) => s.(completed := s.completed - {k})
    case BeginDrain => s.(draining := true)
    case Crash =>
      s.(states := map[], sems := map[], polls := map[], draining := false, tasks := map t | t in s.tasks :: Killed(s.tasks[t]))
  }

  function Killed(k: Task): Task {
    if k.pc == Done then k else k.(pc := Done, outcome := Lost)
  }

  /** What an action adds to the history. */
  function Emits(s: State, a: Action): seq<Obs>
    requires Enabled(s, a)
  {
    match a
    case Publish(_, _) => []
    case Expire(q) => [MessageExpired(s.slots[q].msg.dest, q)]
    case Bind(_, _) => []
    case Configure(ag, c) => if c.Some? then [Configured(ag, c.value.conc)] else []
    case ApplyChange(ag) => if ag in s.states then [ChangeApplied(ag)] else []
    case StartPoll(_, _) => []
    case Poll(_, _) => []
    case Deliver(_, _) => []
    case Purge(k) => [RecordPurged(k)]
    case BeginDrain => []
    case Crash => [Restarted]
    case Lookup(t, ok) => if ok then [] else [LookupFailed(s.tasks[t].Id())]
    case Insert(t) =>
      var k := s.tasks[t];
      if InFlight(s.states, k.Id()) then [Resolved(k.agent, t, Dropped)] else []
    case Spawn(t, ok) =>
      var k := s.tasks[t];
      if ok then [HandlerStarted(k.Id(), k.seqNo, t)] else [HandlerNotSpawned(k.Id(), k.seqNo)]
    case Exit(t) => [HandlerExited(s.tasks[t].Id(), t)]
    case Mark(t, ok) => if ok then [] else [MarkFailed(s.tasks[t].Id())]
    case Resolve(t, _) => [Resolved(s.tasks[t].agent, t, s.tasks[t].outcome)]
    case Check(_) => []
    case Ensure(_, _) => []
    case Acquire(_) => []
    case Remove(_) => []
    case Release(_) => []
  }

  function Apply(s: State, a: Action): State
    requires Enabled(s, a)
  {
    var r := if a.IsTaskStep()
             then SharedAfter(s, a).(tasks := s.tasks[a.task := TaskAfter(s, a)])
             else EnvironmentAfter(s, a);
    r.(log := s.log + Emits(s, a))
  }

  lemma ApplyParts(s: State, a: Action)
    requires Enabled(s, a)
    ensures a.IsTaskStep() ==>
      Apply(s, a) == SharedAfter(s, a).(tasks := s.tasks[a.task := TaskAfter(s, a)], log := s.log + Emits(s, a))
    ensures !a.IsTaskStep() ==> Apply(s, a) == EnvironmentAfter(s, a).(log := s.log + Emits(s, a))
  {
    hide SharedAfter, TaskAfter, EnvironmentAfter, Emits;
  }

  predicate Legal(s: State, tr: seq<Action>)
    decreases |tr|
  {
    tr == [] || (Enabled(s, tr[0]) && Legal(Apply(s, tr[0]), tr[1..]))
  }

  function After(s: State, tr: seq<Action>): State
    requires Legal(s, tr)
    decreases |tr|
  {
    if tr == [] then s else After(Apply(s, tr[0]), tr[1..])
  }

  /** Everything a run can reach from a cold start. */
  ghost predicate Reachable(s: State) {
    exists tr :: Legal(Init(s.maxBytes), tr) && After(Init(s.maxBytes), tr) == s
  }

  lemma {:induction false} RunAppend(s: State, tr: seq<Action>, more: seq<Action>)
    requires Legal(s, tr) && Legal(After(s, tr), more)
    ensures Legal(s, tr + more) && After(s, tr + more) == After(After(s, tr), more)
    decreases |tr|
  {
    hide Apply, Enabled;
    if tr == [] {
      assert tr + more == more;
    } else {
      RunAppend(Apply(s, tr[0]), tr[1..], more);
      assert (tr + more)[1..] == tr[1..] + more;
    }
  }

  lemma StepKeepsMaxBytes(s: State, a: Action)
    requires Enabled(s, a)
    ensures Apply(s, a).maxBytes == s.maxBytes
  {
  }

  lemma {:induction false} RunKeepsMaxBytes(s: State, tr: seq<Action>)
    requires Legal(s, tr)
    ensures After(s, tr).maxBytes == s.maxBytes
    decreases |tr|
  {
    if tr != [] {
      StepKeepsMaxBytes(s, tr[0]);
      RunKeepsMaxBytes(Apply(s, tr[0]), tr[1..]);
    }
  }

  lemma ReachableStep(s: State, a: Action)
    requires Reachable(s) && Enabled(s, a)
    ensures Reachable(Apply(s, a))
  {
    hide Apply, Enabled;
    var tr :| Legal(Init(s.maxBytes), tr) && After(Init(s.maxBytes), tr) == s;
    RunAppend(Init(s.maxBytes), tr, [a]);
    StepKeepsMaxBytes(s, a);
    assert After(Init(s.maxBytes), tr + [a]) == Apply(s, a);
  }

  lemma {:induction false} ReachableRun(s: State, tr: seq<Action>)
    requires Reachable(s) && Legal(s, tr)
    ensures Reachable(After(s, tr))
    decreases |tr|
  {
    if tr != [] {
      ReachableStep(s, tr[0]);
      ReachableRun(Apply(s, tr[0]), tr[1..]);
    }
  }
}
