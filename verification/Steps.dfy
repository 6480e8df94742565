/** What the actions of a task do, each spelled out as one update of the state. */
module Steps {
  import opened Common
  import opened Protocol

  function SlotsAfter(slots: map<nat, Slot>, q: nat, how: Outcome, arrived: bool): map<nat, Slot> {
    if arrived && q in slots && slots[q].fate == Pending then slots[q := slots[q].(fate := Settled(how))] else slots
  }

  lemma ResolveIs(s: State, t: TaskId, arrived: bool)
    requires At(s, t, Rejecting) || At(s, t, Resolving)
    ensures Enabled(s, Resolve(t, arrived))
    ensures var k := s.tasks[t];
      Apply(s, Resolve(t, arrived)) == s.(
        slots := SlotsAfter(s.slots, k.seqNo, k.outcome, arrived),
        log := s.log + [Resolved(k.agent, t, k.outcome)],
        tasks := s.tasks[t := k.(pc := if k.pc == Rejecting then Done else Releasing)])
  {
  }

  lemma RemoveIs(s: State, t: TaskId)
    requires At(s, t, Marked) || At(s, t, SpawnFailed)
    ensures Enabled(s, Remove(t))
    ensures var k := s.tasks[t];
      Apply(s, Remove(t)) == s.(
        states := RemoveInFlight(s.states, k.agent, k.event),
        tasks := s.tasks[t := k.(pc := Resolving, outcome := if k.pc == Marked then Acked else Termed(Unspawnable))])
  {
    assert Apply(s, Remove(t)).log == s.log;
  }

  lemma InsertIs(s: State, t: TaskId)
    requires At(s, t, Armed)
    ensures Enabled(s, Insert(t))
    ensures var k := s.tasks[t];
      Apply(s, Insert(t)) ==
        if InFlight(s.states, k.Id())
        then s.(log := s.log + [Resolved(k.agent, t, Dropped)],
                tasks := s.tasks[t := k.(pc := Releasing, outcome := Dropped)])
        else s.(states := InsertInFlight(s.states, k.agent, k.event, k.gen), tasks := s.tasks[t := k.(pc := Inserted)])
  {
    assert s.log + [] == s.log;
  }

  lemma SpawnIs(s: State, t: TaskId, ok: bool)
    requires At(s, t, Inserted)
    ensures Enabled(s, Spawn(t, ok))
    ensures var k := s.tasks[t];
      Apply(s, Spawn(t, ok)) == s.(
        log := s.log + [if ok then HandlerStarted(k.Id(), k.seqNo, t) else HandlerNotSpawned(k.Id(), k.seqNo)],
        tasks := s.tasks[t := k.(pc := if ok then Running else SpawnFailed)])
  {
  }

  lemma LookupIs(s: State, t: TaskId, ok: bool)
    requires At(s, t, Permitted)
    ensures Enabled(s, Lookup(t, ok))
    ensures var k := s.tasks[t];
      Apply(s, Lookup(t, ok)) == s.(
        log := if ok then s.log else s.log + [LookupFailed(k.Id())],
        tasks := s.tasks[t := if ok && k.Id() in s.completed then k.(pc := Resolving, outcome := Acked) else k.(pc := Armed)])
  {
    assert s.log + [] == s.log;
  }

  lemma CheckIs(s: State, t: TaskId)
    requires At(s, t, Received) && s.tasks[t].seqNo in s.slots
    ensures Enabled(s, Check(t))
    ensures var k := s.tasks[t];
      var m := s.slots[k.seqNo].msg;
      Apply(s, Check(t)) == s.(tasks := s.tasks[t :=
        if Verdict(s, m).Undecided? then k.(pc := Checked, conc := s.registry[m.dest].conc)
        else k.(pc := Rejecting, outcome := Verdict(s, m))])
  {
    assert s.log + [] == s.log;
  }

  lemma ExitIs(s: State, t: TaskId)
    requires At(s, t, Running)
    ensures Enabled(s, Exit(t))
    ensures var k := s.tasks[t];
      Apply(s, Exit(t)) == s.(
        log := s.log + [HandlerExited(k.Id(), t)], tasks := s.tasks[t := k.(pc := Exited)])
  {
  }

  lemma MarkIs(s: State, t: TaskId, ok: bool)
    requires At(s, t, Exited)
    ensures Enabled(s, Mark(t, ok))
    ensures var k := s.tasks[t];
      Apply(s, Mark(t, ok)) == s.(
        completed := if ok then s.completed + {k.Id()} else s.completed,
        log := if ok then s.log else s.log + [MarkFailed(k.Id())],
        tasks := s.tasks[t := k.(pc := Marked)])
  {
    assert s.log + [] == s.log;
  }

  lemma RedeliverIs(s: State, t: TaskId, q: nat)
    requires !s.draining && t !in s.tasks && q in s.slots && s.slots[q].fate == Pending
    ensures Enabled(s, Deliver(t, q))
    ensures var m := s.slots[q].msg;
      Apply(s, Deliver(t, q)) == s.(tasks := s.tasks[t := Task(m.dest, EventOf(m), q, Received, 0, 0, Undecided)])
  {
    assert s.log + [] == s.log && s.slots[q := s.slots[q].(fate := Pending)] == s.slots;
  }

  lemma StartPollIs(s: State, p: PollId, a: AgentId)
    requires p !in s.polls && a in s.registry && s.registry[a].enabled
    ensures Enabled(s, StartPoll(p, a))
    ensures Apply(s, StartPoll(p, a)) == s.(polls := s.polls[p := Reading(a, s.registry[a].conc)])
  {
    assert s.log + [] == s.log;
  }

  lemma PollIs(s: State, p: PollId, g: Gen)
    requires p in s.polls && s.polls[p].agent !in s.states && g !in s.sems
    ensures Enabled(s, Poll(p, g))
    ensures var r := s.polls[p];
      Apply(s, Poll(p, g)) == s.(
        sems := s.sems[g := Semaphore(r.agent, r.conc, r.conc)], states := s.states[r.agent := AgentState(g, {})],
        polls := s.polls - {p})
  {
    assert s.log + [] == s.log;
  }

  lemma PollAnyIs(s: State, p: PollId, g: Gen)
    requires p in s.polls && (s.polls[p].agent in s.states || g !in s.sems)
    ensures Enabled(s, Poll(p, g))
    ensures var r := s.polls[p];
      Apply(s, Poll(p, g)) == s.(
        sems := EnsureSem(s, r.agent, r.conc, g), states := EnsureEntry(s.states, r.agent, g), polls := s.polls - {p})
  {
    hide EnsureSem, EnsureEntry;
    assert s.log + [] == s.log;
  }

  lemma EnsureIs(s: State, t: TaskId, g: Gen)
    requires At(s, t, Checked) && s.tasks[t].agent in s.states
    ensures Enabled(s, Ensure(t, g))
    ensures var k := s.tasks[t];
      Apply(s, Ensure(t, g)) == s.(tasks := s.tasks[t := k.(pc := Waiting, gen := s.states[k.agent].permits)])
  {
    assert s.log + [] == s.log;
  }

  lemma EnsureAnyIs(s: State, t: TaskId, g: Gen)
    requires At(s, t, Checked) && (s.tasks[t].agent in s.states || g !in s.sems)
    ensures Enabled(s, Ensure(t, g))
    ensures var k := s.tasks[t];
      Apply(s, Ensure(t, g)) == s.(
        sems := EnsureSem(s, k.agent, k.conc, g), states := EnsureEntry(s.states, k.agent, g),
        tasks := s.tasks[t := k.(pc := Waiting, gen := EnsureEntry(s.states, k.agent, g)[k.agent].permits)])
  {
    assert s.log + [] == s.log;
    hide EnsureSem, EnsureEntry;
  }

  lemma AcquireIs(s: State, t: TaskId)
    requires At(s, t, Waiting) && s.tasks[t].gen in s.sems && s.sems[s.tasks[t].gen].free > 0
    ensures Enabled(s, Acquire(t))
    ensures var k, sem := s.tasks[t], s.sems[s.tasks[t].gen];
      Apply(s, Acquire(t)) == s.(
        sems := s.sems[k.gen := sem.(free := sem.free - 1)], tasks := s.tasks[t := k.(pc := Permitted)])
  {
    assert s.log + [] == s.log;
  }

  lemma ReleaseIs(s: State, t: TaskId)
    requires At(s, t, Releasing) && s.tasks[t].gen in s.sems
    ensures Enabled(s, Release(t))
    ensures var k, sem := s.tasks[t], s.sems[s.tasks[t].gen];
      Apply(s, Release(t)) == s.(
        sems := s.sems[k.gen := sem.(free := sem.free + 1)], tasks := s.tasks[t := k.(pc := Done)])
  {
    assert s.log + [] == s.log;
  }

  lemma ApplyChangeIs(s: State, a: AgentId)
    ensures Enabled(s, ApplyChange(a))
    ensures Apply(s, ApplyChange(a)) == s.(
      states := s.states - {a}, log := if a in s.states then s.log + [ChangeApplied(a)] else s.log)
  {
    assert s.log + [] == s.log;
  }

  lemma ConfigureIs(s: State, a: AgentId, c: Config)
    requires c.conc >= 1
    ensures Enabled(s, Configure(a, Some(c)))
    ensures Apply(s, Configure(a, Some(c))) == s.(
      registry := s.registry[a := c], log := s.log + [Configured(a, c.conc)])
  {
  }

  /** An entry that is not there is made with what the task read. */
  lemma EnsureNewIs(s: State, t: TaskId, g: Gen)
    requires At(s, t, Checked) && s.tasks[t].agent !in s.states && g !in s.sems
    ensures Enabled(s, Ensure(t, g))
    ensures var k := s.tasks[t];
      Apply(s, Ensure(t, g)) == s.(
        sems := s.sems[g := Semaphore(k.agent, k.conc, k.conc)], states := s.states[k.agent := AgentState(g, {})],
        tasks := s.tasks[t := k.(pc := Waiting, gen := g)])
  {
    assert s.log + [] == s.log;
  }

  lemma PurgeIs(s: State, k: Key)
    requires k in s.completed
    ensures Enabled(s, Purge(k))
    ensures Apply(s, Purge(k)) == s.(completed := s.completed - {k}, log := s.log + [RecordPurged(k)])
  {
  }

  lemma PublishIs(s: State, q: nat, m: Message)
    requires forall p :: p in s.slots ==> p < q
    ensures Enabled(s, Publish(q, m))
    ensures Apply(s, Publish(q, m)) == s.(slots := s.slots[q := Slot(m, Queued)])
  {
    assert s.log + [] == s.log;
  }

  lemma ExpireIs(s: State, q: nat)
    requires q in s.slots && (s.slots[q].fate.Queued? || s.slots[q].fate.Pending?)
    ensures Enabled(s, Expire(q))
    ensures Apply(s, Expire(q)) == s.(
      slots := s.slots[q := s.slots[q].(fate := Expired)], log := s.log + [MessageExpired(s.slots[q].msg.dest, q)])
  {
  }

  lemma BindIs(s: State, a: AgentId, n: nat)
    requires Configured(a, n) in s.log
    ensures Enabled(s, Bind(a, n))
    ensures Apply(s, Bind(a, n)) == s.(limits := s.limits[a := n])
  {
    assert s.log + [] == s.log;
  }

  lemma DeliverIs(s: State, t: TaskId, q: nat)
    requires !s.draining && t !in s.tasks && q in s.slots && s.slots[q].fate == Queued && NextInLine(s, q)
    ensures Enabled(s, Deliver(t, q))
    ensures var m := s.slots[q].msg;
      Apply(s, Deliver(t, q)) == s.(
        slots := s.slots[q := Slot(m, Pending)],
        tasks := s.tasks[t := Task(m.dest, EventOf(m), q, Received, 0, 0, Undecided)])
  {
    assert s.log + [] == s.log;
  }

  function AllKilled(tasks: map<TaskId, Task>): (r: map<TaskId, Task>)
    ensures r.Keys == tasks.Keys && forall t :: t in r ==> r[t].pc == Done
  {
    map t | t in tasks :: Killed(tasks[t])
  }

  lemma CrashIs(s: State)
    ensures Enabled(s, Crash)
    ensures Apply(s, Crash) == s.(
      states := map[], sems := map[], polls := map[], draining := false, tasks := AllKilled(s.tasks),
      log := s.log + [Restarted])
  {
  }

  // Which actions touch one part of the state, and how.

  lemma RegistryIs(s: State, a: Action)
    requires Enabled(s, a)
    ensures Apply(s, a).registry ==
      if a.Configure? then if a.config.Some? then s.registry[a.agent := a.config.value] else s.registry - {a.agent}
      else s.registry
  {
    hide Apply, Emits, EnsureSem, EnsureEntry, InsertInFlight, RemoveInFlight, InFlight, TaskAfter, NextInLine;
    ApplyParts(s, a);
  }

  lemma PollsAre(s: State, a: Action)
    requires Enabled(s, a)
    ensures Apply(s, a).polls ==
      match a
      case StartPoll(p, ag) => s.polls[p := Reading(ag, s.registry[ag].conc)]
      case Poll(p, _) => s.polls - {p}
      case Crash => map[]
      case _ => s.polls
  {
    hide Apply, Emits, EnsureSem, EnsureEntry, InsertInFlight, RemoveInFlight, InFlight, TaskAfter, NextInLine;
    ApplyParts(s, a);
  }

  lemma SemsAre(s: State, a: Action)
    requires Enabled(s, a)
    ensures Apply(s, a).sems ==
      match a
      case Poll(p, g) => EnsureSem(s, s.polls[p].agent, s.polls[p].conc, g)
      case Ensure(t, g) => EnsureSem(s, s.tasks[t].agent, s.tasks[t].conc, g)
      case Acquire(t) => s.sems[s.tasks[t].gen := s.sems[s.tasks[t].gen].(free := s.sems[s.tasks[t].gen].free - 1)]
      case Release(t) => s.sems[s.tasks[t].gen := s.sems[s.tasks[t].gen].(free := s.sems[s.tasks[t].gen].free + 1)]
      case Crash => map[]
      case _ => s.sems
  {
    hide Apply, Emits, EnsureSem, EnsureEntry, InsertInFlight, RemoveInFlight, InFlight, TaskAfter, NextInLine;
    ApplyParts(s, a);
  }

  lemma SlotsAre(s: State, a: Action)
    requires Enabled(s, a)
    ensures Apply(s, a).slots ==
      match a
      case Publish(q, m) => s.slots[q := Slot(m, Queued)]
      case Expire(q) => s.slots[q := s.slots[q].(fate := Expired)]
      case Deliver(_, q) => s.slots[q := s.slots[q].(fate := Pending)]
      case Resolve(t, arrived) => SlotsAfter(s.slots, s.tasks[t].seqNo, s.tasks[t].outcome, arrived)
      case _ => s.slots
  {
    hide Apply, Emits, EnsureSem, EnsureEntry, InsertInFlight, RemoveInFlight, InFlight, TaskAfter, NextInLine;
    ApplyParts(s, a);
  }

  lemma CompletedIs(s: State, a: Action)
    requires Enabled(s, a)
    ensures Apply(s, a).completed ==
      match a
      case Mark(t, ok) => if ok then s.completed + {s.tasks[t].Id()} else s.completed
      case Purge(k) => s.completed - {k}
      case _ => s.completed
  {
    hide Apply, Emits, EnsureSem, EnsureEntry, InsertInFlight, RemoveInFlight, InFlight, TaskAfter, NextInLine;
    ApplyParts(s, a);
  }
}
