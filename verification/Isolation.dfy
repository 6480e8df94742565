/** Agents do not interfere, even when event ids are reused across agents. */
module Isolation {
  import opened Common
  import opened Protocol
  import opened Counting
  import opened Invariants

  /** The agent an observation is about; a restart is about all of them. */
  predicate About(o: Obs, a: AgentId) {
    match o
    case HandlerStarted(k, _, _) => k.agent == a
    case HandlerExited(k, _) => k.agent == a
    case LookupFailed(k) => k.agent == a
    case MarkFailed(k) => k.agent == a
    case HandlerNotSpawned(k, _) => k.agent == a
    case RecordPurged(k) => k.agent == a
    case ChangeApplied(ag) => ag == a
    case Configured(ag, _) => ag == a
    case Resolved(ag, _, _) => ag == a
    case MessageExpired(ag, _) => ag == a
    case Restarted => true
  }

  function Story(log: seq<Obs>, a: AgentId): seq<Obs> {
    if log == [] then []
    else
      var rest := Story(log[..|log| - 1], a);
      if About(log[|log| - 1], a) then rest + [log[|log| - 1]] else rest
  }

  function OnlyAgent<V>(m: map<AgentId, V>, a: AgentId): map<AgentId, V> {
    map b | b in m && b == a :: m[b]
  }

  function OnlyPolls(m: map<PollId, Reading>, a: AgentId): map<PollId, Reading> {
    map p | p in m && m[p].agent == a :: m[p]
  }

  function OnlySems(m: map<Gen, Semaphore>, a: AgentId): map<Gen, Semaphore> {
    map g | g in m && m[g].owner == a :: m[g]
  }

  function OnlyTasks(m: map<TaskId, Task>, a: AgentId): map<TaskId, Task> {
    map t | t in m && m[t].agent == a :: m[t]
  }

  function OnlySlots(m: map<nat, Slot>, a: AgentId): map<nat, Slot> {
    map q | q in m && m[q].msg.dest == a :: m[q]
  }

  function OnlyKeys(m: set<Key>, a: AgentId): set<Key> {
    set k | k in m && k.agent == a
  }

  /** What a state holds for one agent. */
  function Project(s: State, a: AgentId): State {
    State(
      s.maxBytes, OnlyAgent(s.registry, a), OnlyAgent(s.states, a), OnlyPolls(s.polls, a),
      OnlySems(s.sems, a), OnlyTasks(s.tasks, a),
      OnlyKeys(s.completed, a), OnlySlots(s.slots, a), OnlyAgent(s.limits, a), s.draining, Story(s.log, a))
  }

  // ---- how the parts project -----------------------------------------------

  lemma AgentUpdate<V>(m: map<AgentId, V>, b: AgentId, v: V, a: AgentId)
    ensures OnlyAgent(m[b := v], a) == if b == a then OnlyAgent(m, a)[b := v] else OnlyAgent(m, a)
    ensures OnlyAgent(m - {b}, a) == if b == a then OnlyAgent(m, a) - {b} else OnlyAgent(m, a)
    ensures b in OnlyAgent(m, a) <==> b == a && b in m
    ensures b == a && b in m ==> OnlyAgent(m, a)[b] == m[b]
  {
  }

  lemma SemUpdate(m: map<Gen, Semaphore>, g: Gen, v: Semaphore, a: AgentId)
    requires g in m ==> m[g].owner == v.owner
    ensures OnlySems(m[g := v], a) == if v.owner == a then OnlySems(m, a)[g := v] else OnlySems(m, a)
    ensures g in OnlySems(m, a) <==> g in m && m[g].owner == a
    ensures g in OnlySems(m, a) ==> OnlySems(m, a)[g] == m[g]
  {
  }

  lemma PollUpdate(m: map<PollId, Reading>, p: PollId, v: Reading, a: AgentId)
    requires p in m ==> m[p].agent == v.agent
    ensures OnlyPolls(m[p := v], a) == if v.agent == a then OnlyPolls(m, a)[p := v] else OnlyPolls(m, a)
    ensures p in m ==> OnlyPolls(m - {p}, a) == if v.agent == a then OnlyPolls(m, a) - {p} else OnlyPolls(m, a)
    ensures p in OnlyPolls(m, a) <==> p in m && m[p].agent == a
    ensures p in OnlyPolls(m, a) ==> OnlyPolls(m, a)[p] == m[p]
  {
  }

  lemma TaskUpdate(m: map<TaskId, Task>, t: TaskId, v: Task, a: AgentId)
    requires t in m ==> m[t].agent == v.agent
    ensures OnlyTasks(m[t := v], a) == if v.agent == a then OnlyTasks(m, a)[t := v] else OnlyTasks(m, a)
    ensures t in OnlyTasks(m, a) <==> t in m && m[t].agent == a
    ensures t in OnlyTasks(m, a) ==> OnlyTasks(m, a)[t] == m[t]
  {
  }

  lemma SlotUpdate(m: map<nat, Slot>, q: nat, v: Slot, a: AgentId)
    requires q in m ==> m[q].msg.dest == v.msg.dest
    ensures OnlySlots(m[q := v], a) == if v.msg.dest == a then OnlySlots(m, a)[q := v] else OnlySlots(m, a)
    ensures q in OnlySlots(m, a) <==> q in m && m[q].msg.dest == a
    ensures q in OnlySlots(m, a) ==> OnlySlots(m, a)[q] == m[q]
  {
  }

  lemma KeyUpdate(m: set<Key>, k: Key, a: AgentId)
    ensures OnlyKeys(m + {k}, a) == if k.agent == a then OnlyKeys(m, a) + {k} else OnlyKeys(m, a)
    ensures OnlyKeys(m - {k}, a) == if k.agent == a then OnlyKeys(m, a) - {k} else OnlyKeys(m, a)
    ensures k in OnlyKeys(m, a) <==> k in m && k.agent == a
  {
  }

  lemma KilledProjects(m: map<TaskId, Task>, a: AgentId)
    ensures OnlyTasks(map t | t in m :: Killed(m[t]), a)
         == map t | t in OnlyTasks(m, a) :: Killed(OnlyTasks(m, a)[t])
  {
  }

  lemma EntryProjects(m: map<AgentId, AgentState>, b: AgentId, e: EventId, g: Gen, a: AgentId)
    ensures b == a ==>
      && OnlyAgent(EnsureEntry(m, b, g), a) == EnsureEntry(OnlyAgent(m, a), b, g)
      && OnlyAgent(InsertInFlight(m, b, e, g), a) == InsertInFlight(OnlyAgent(m, a), b, e, g)
      && OnlyAgent(RemoveInFlight(m, b, e), a) == RemoveInFlight(OnlyAgent(m, a), b, e)
      && (InFlight(OnlyAgent(m, a), Key(b, e)) <==> InFlight(m, Key(b, e)))
      && EnsureEntry(m, b, g)[b] == EnsureEntry(OnlyAgent(m, a), b, g)[b]
    ensures b != a ==>
      && OnlyAgent(EnsureEntry(m, b, g), a) == OnlyAgent(m, a)
      && OnlyAgent(InsertInFlight(m, b, e, g), a) == OnlyAgent(m, a)
      && OnlyAgent(RemoveInFlight(m, b, e), a) == OnlyAgent(m, a)
  {
    var m1 := EnsureEntry(m, b, g);
    AgentUpdate(m, b, AgentState(g, {}), a);
    AgentUpdate(m1, b, m1[b].(inFlight := m1[b].inFlight + {e}), a);
    if b in m {
      AgentUpdate(m, b, m[b].(inFlight := m[b].inFlight - {e}), a);
    }
    hide OnlyAgent;
  }

  /** Whether an action belongs to the agent; a crash and a drain belong to all. */
  predicate Concerns(s: State, act: Action, a: AgentId)
    requires Enabled(s, act)
  {
    match act
    case Publish(_, m) => m.dest == a
    case Expire(q) => s.slots[q].msg.dest == a
    case Bind(ag, _) => ag == a
    case Configure(ag, _) => ag == a
    case ApplyChange(ag) => ag == a
    case StartPoll(_, ag) => ag == a
    case Poll(p, _) => s.polls[p].agent == a
    case Deliver(_, q) => s.slots[q].msg.dest == a
    case Purge(k) => k.agent == a
    case BeginDrain => true
    case Crash => true
    case _ => s.tasks[act.task].agent == a
  }

  /** A run without every step that belongs to other agents. */
  function Own(s: State, tr: seq<Action>, a: AgentId): seq<Action>
    requires Legal(s, tr)
    decreases |tr|
  {
    if tr == [] then []
    else
      var rest := Own(Apply(s, tr[0]), tr[1..], a);
      if Concerns(s, tr[0], a) then [tr[0]] + rest else rest
  }

  lemma StoryAppend(log: seq<Obs>, e: seq<Obs>, a: AgentId)
    requires |e| <= 1
    ensures Story(log + e, a) == Story(log, a) + (if e != [] && About(e[0], a) then e else [])
  {
    if e == [] {
      assert log + e == log;
    } else {
      assert (log + e)[..|log + e| - 1] == log;
    }
  }

  lemma {:induction false} StoryKeeps(log: seq<Obs>, o: Obs, a: AgentId)
    requires o in log && About(o, a)
    ensures o in Story(log, a)
  {
    if log[|log| - 1] != o {
      assert o in log[..|log| - 1];
      StoryKeeps(log[..|log| - 1], o, a);
    }
  }

  lemma OutstandingProjects(s: State, a: AgentId)
    ensures Outstanding(Project(s, a).slots, a) == Outstanding(s.slots, a)
  {
  }

  lemma OwnEnabledEnvironment(s: State, act: Action, a: AgentId)
    requires Enabled(s, act) && Concerns(s, act, a) && !act.IsTaskStep()
    ensures Enabled(Project(s, a), act)
  {
    OutstandingProjects(s, a);
    if act.Bind? {
      StoryKeeps(s.log, Configured(act.agent, act.limit), a);
    }
  }

  /** What a task looks at is the same in the projection. */
  lemma OwnView(s: State, t: TaskId, a: AgentId)
    requires Wired(s) && t in s.tasks && s.tasks[t].agent == a
    ensures var p, k := Project(s, a), s.tasks[t];
      && t in p.tasks && p.tasks[t] == k
      && k.seqNo in p.slots && p.slots[k.seqNo] == s.slots[k.seqNo]
      && (k.Ensured() ==> k.gen in p.sems && p.sems[k.gen] == s.sems[k.gen])
      && (a in p.states <==> a in s.states) && (a in s.states ==> p.states[a] == s.states[a])
      && (k.Id() in p.completed <==> k.Id() in s.completed)
      && (forall g :: g !in s.sems ==> g !in p.sems)
      && Verdict(p, p.slots[k.seqNo].msg) == Verdict(s, s.slots[k.seqNo].msg)
      && (a in s.registry ==> a in p.registry && p.registry[a] == s.registry[a])
  {
    WiredAt(s, t);
  }

  lemma ConcernsOwner(s: State, act: Action, a: AgentId)
    requires Enabled(s, act) && act.IsTaskStep()
    ensures act.task in s.tasks && (Concerns(s, act, a) <==> s.tasks[act.task].agent == a)
  {
  }

  lemma OwnEnabledTask(s: State, act: Action, a: AgentId)
    requires Wired(s) && Enabled(s, act) && Concerns(s, act, a) && act.IsTaskStep()
    ensures Enabled(Project(s, a), act)
    ensures TaskAfter(Project(s, a), act) == TaskAfter(s, act)
    ensures Emits(Project(s, a), act) == Emits(s, act)
    ensures TaskAfter(s, act).agent == a
  {
    hide Project, Wired, Verdict, NextInLine, Concerns;
    ConcernsOwner(s, act, a);
    OwnView(s, act.task, a);
    WiredAt(s, act.task);
    if act.Check? {
      CheckVerdict(s, s.slots[s.tasks[act.task].seqNo].msg);
    }
  }

  lemma CheckVerdict(s: State, m: Message)
    ensures Verdict(s, m).Undecided? ==> m.dest in s.registry
  {
  }

  lemma EmitsAbout(s: State, act: Action, a: AgentId)
    requires Enabled(s, act)
    ensures |Emits(s, act)| <= 1
    ensures Emits(s, act) != [] ==> (About(Emits(s, act)[0], a) <==> Concerns(s, act, a))
  {
  }

  /** The steps that touch the `states` map. */
  lemma EntryStepProjects(s: State, act: Action, a: AgentId)
    requires Wired(s) && Enabled(s, act) && (act.Ensure? || act.Insert? || act.Remove?)
    requires s.tasks[act.task].agent == a ==> Enabled(Project(s, a), act) && Project(s, a).tasks[act.task] == s.tasks[act.task]
    ensures Project(SharedAfter(s, act), a) ==
      if s.tasks[act.task].agent == a then SharedAfter(Project(s, a), act) else Project(s, a)
  {
    var k := s.tasks[act.task];
    if act.Ensure? {
      FreshEnsure(s, act.task, act.gen);
    }
    hide Enabled, Wired, OnlyAgent, OnlyPolls, OnlySems, OnlyKeys, OnlySlots, OnlyTasks, Story, EnsureEntry, InsertInFlight, RemoveInFlight, InFlight;
    if act.Ensure? {
      EntryProjects(s.states, k.agent, k.event, act.gen, a);
      AgentUpdate(s.states, k.agent, AgentState(act.gen, {}), a);
      if k.agent !in s.states {
        SemUpdate(s.sems, act.gen, Semaphore(k.agent, k.conc, k.conc), a);
      }
    } else {
      EntryProjects(s.states, k.agent, k.event, k.gen, a);
    }
  }

  /** The steps that move a permit. */
  lemma PermitStepProjects(s: State, act: Action, a: AgentId)
    requires Wired(s) && Enabled(s, act) && (act.Acquire? || act.Release?)
    requires s.tasks[act.task].agent == a ==> Enabled(Project(s, a), act) && Project(s, a).tasks[act.task] == s.tasks[act.task]
    ensures Project(SharedAfter(s, act), a) ==
      if s.tasks[act.task].agent == a then SharedAfter(Project(s, a), act) else Project(s, a)
  {
    hide Enabled, Wired, OnlyAgent, OnlyPolls, OnlySems, OnlyKeys, OnlySlots, OnlyTasks, Story;
    PermitFrom(s, act);
    var k := s.tasks[act.task];
    var sem := s.sems[k.gen];
    SemUpdate(s.sems, k.gen, sem.(free := if act.Acquire? then sem.free - 1 else sem.free + 1), a);
  }

  lemma SharedProjects(s: State, act: Action, a: AgentId)
    requires Wired(s) && Enabled(s, act) && act.IsTaskStep()
    requires s.tasks[act.task].agent == a ==> Enabled(Project(s, a), act) && Project(s, a).tasks[act.task] == s.tasks[act.task]
    ensures Project(SharedAfter(s, act), a) ==
      if s.tasks[act.task].agent == a then SharedAfter(Project(s, a), act) else Project(s, a)
  {
    if act.Ensure? || act.Insert? || act.Remove? {
      hide Project, SharedAfter, Enabled, Wired;
      EntryStepProjects(s, act, a);
    } else if act.Acquire? || act.Release? {
      hide Project, SharedAfter, Enabled, Wired;
      PermitStepProjects(s, act, a);
    } else {
      var k := s.tasks[act.task];
      WiredAt(s, act.task);
      hide Enabled, Wired, OnlyAgent, OnlyPolls, OnlySems, OnlyKeys, OnlySlots, OnlyTasks, Story;
      if act.Mark? {
        KeyUpdate(s.completed, k.Id(), a);
      } else if act.Resolve? {
        SlotUpdate(s.slots, k.seqNo, s.slots[k.seqNo].(fate := Settled(k.outcome)), a);
      }
    }
  }

  lemma FreshEnsure(s: State, t: TaskId, g: Gen)
    requires Enabled(s, Ensure(t, g))
    ensures s.tasks[t].agent in s.states || g !in s.sems
  {
  }

  lemma PermitFrom(s: State, act: Action)
    requires Wired(s) && Enabled(s, act) && (act.Acquire? || act.Release?)
    ensures act.task in s.tasks
    ensures var k := s.tasks[act.task];
      && k.gen in s.sems && s.sems[k.gen].owner == k.agent
      && (act.Acquire? ==> s.sems[k.gen].free > 0)
  {
    WiredAt(s, act.task);
  }

  lemma PollProjects(s: State, p: PollId, g: Gen, a: AgentId)
    requires Enabled(s, Poll(p, g)) && (s.polls[p].agent == a ==> Enabled(Project(s, a), Poll(p, g)))
    ensures Project(EnvironmentAfter(s, Poll(p, g)), a) ==
      if s.polls[p].agent == a then EnvironmentAfter(Project(s, a), Poll(p, g)) else Project(s, a)
  {
    EnvironmentFacts(s, Poll(p, g));
    hide Enabled, OnlyAgent, OnlyPolls, OnlySems, OnlyKeys, OnlySlots, OnlyTasks, Story, EnsureEntry;
    var r := s.polls[p];
    PollUpdate(s.polls, p, r, a);
    EntryProjects(s.states, r.agent, "", g, a);
    AgentUpdate(s.states, r.agent, AgentState(g, {}), a);
    if r.agent !in s.states {
      SemUpdate(s.sems, g, Semaphore(r.agent, r.conc, r.conc), a);
    }
  }

  lemma SlotsProject(s: State, act: Action, a: AgentId)
    requires Enabled(s, act) && (act.Publish? || act.Expire? || act.Deliver?)
    requires Concerns(s, act, a) ==> Enabled(Project(s, a), act)
    ensures Project(EnvironmentAfter(s, act), a) ==
      if Concerns(s, act, a) then EnvironmentAfter(Project(s, a), act) else Project(s, a)
  {
    hide Enabled, OnlyAgent, OnlyPolls, OnlySems, OnlyKeys, OnlySlots, OnlyTasks, Story;
    EnvironmentFacts(s, act);
    match act
    case Publish(q, m) => SlotUpdate(s.slots, q, Slot(m, Queued), a);
    case Expire(q) => SlotUpdate(s.slots, q, s.slots[q].(fate := Expired), a);
    case Deliver(t, q) =>
      SlotUpdate(s.slots, q, s.slots[q].(fate := Pending), a);
      TaskUpdate(s.tasks, t, NewTask(s.slots[q].msg, q), a);
  }

  lemma CrashProjects(s: State, a: AgentId)
    ensures Project(EnvironmentAfter(s, Crash), a) == EnvironmentAfter(Project(s, a), Crash)
  {
    hide OnlyAgent, OnlyPolls, OnlySems, OnlyKeys, OnlySlots, OnlyTasks, Story;
    KilledProjects(s.tasks, a);
    NothingProjects(a);
  }

  lemma EnvironmentProjects(s: State, act: Action, a: AgentId)
    requires Enabled(s, act) && !act.IsTaskStep()
    requires Concerns(s, act, a) ==> Enabled(Project(s, a), act)
    ensures Project(EnvironmentAfter(s, act), a) ==
      if Concerns(s, act, a) then EnvironmentAfter(Project(s, a), act) else Project(s, a)
  {
    EnvironmentFacts(s, act);
    hide Enabled, OnlyAgent, OnlyPolls, OnlySems, OnlyKeys, OnlySlots, OnlyTasks, Story, EnsureEntry;
    match act
    case Publish(_, _) => SlotsProject(s, act, a);
    case Expire(_) => SlotsProject(s, act, a);
    case Deliver(_, _) => SlotsProject(s, act, a);
    case Bind(ag, n) => AgentUpdate(s.limits, ag, n, a);
    case Configure(ag, c) => AgentUpdate(s.registry, ag, if c.Some? then c.value else Config(1, true), a);
    case ApplyChange(ag) => AgentUpdate(s.states, ag, AgentState(0, {}), a);
    case StartPoll(p, ag) =>
      PollUpdate(s.polls, p, Reading(ag, s.registry[ag].conc), a);
      AgentUpdate(s.registry, ag, s.registry[ag], a);
    case Poll(p, g) => PollProjects(s, p, g, a);
    case Purge(k) => KeyUpdate(s.completed, k, a);
    case Crash => CrashProjects(s, a);
    case BeginDrain =>
  }

  lemma NothingProjects(a: AgentId)
    ensures OnlyAgent<AgentState>(map[], a) == map[] && OnlySems(map[], a) == map[] && OnlyPolls(map[], a) == map[]
  {
  }

  lemma EnvironmentFacts(s: State, act: Action)
    requires Enabled(s, act) && !act.IsTaskStep()
    ensures act.Publish? ==> act.seqNo !in s.slots
    ensures act.Expire? || act.Deliver? ==> act.seqNo in s.slots
    ensures act.Deliver? ==> act.task !in s.tasks
    ensures act.StartPoll? ==> act.poll !in s.polls && act.agent in s.registry
    ensures act.Poll? ==> act.poll in s.polls && (s.polls[act.poll].agent in s.states || act.gen !in s.sems)
  {
  }

  // ---- one step ------------------------------------------------------------

  lemma OwnEnabled(s: State, act: Action, a: AgentId)
    requires Wired(s) && Enabled(s, act) && Concerns(s, act, a)
    ensures Enabled(Project(s, a), act)
  {
    if act.IsTaskStep() {
      OwnEnabledTask(s, act, a);
    } else {
      OwnEnabledEnvironment(s, act, a);
    }
  }

  lemma EmitsProjects(s: State, act: Action, a: AgentId)
    requires Wired(s) && Enabled(s, act) && Concerns(s, act, a) && Enabled(Project(s, a), act)
    ensures Emits(Project(s, a), act) == Emits(s, act)
  {
    if act.IsTaskStep() {
      OwnEnabledTask(s, act, a);
    }
  }

  lemma ProjectWith(s: State, tasks: map<TaskId, Task>, log: seq<Obs>, a: AgentId)
    ensures Project(s.(tasks := tasks, log := log), a) == Project(s, a).(tasks := OnlyTasks(tasks, a), log := Story(log, a))
    ensures Project(s, a).tasks == OnlyTasks(s.tasks, a) && Project(s, a).log == Story(s.log, a)
  {
    hide OnlyAgent, OnlyPolls, OnlySems, OnlyKeys, OnlySlots, OnlyTasks, Story;
  }

  /** A step of another agent's task leaves no trace. */
  lemma OtherStepProjects(s: State, act: Action, a: AgentId)
    requires Wired(s) && Enabled(s, act) && act.IsTaskStep() && act.task in s.tasks && s.tasks[act.task].agent != a
    ensures Project(Apply(s, act), a) == Project(s, a)
  {
    hide Apply, Enabled, SharedAfter, TaskAfter, Emits, OnlyTasks, Story, Concerns, Wired, Project;
    ConcernsOwner(s, act, a);
    EmitsAbout(s, act, a);
    ActorMoves(s, act);
    ApplyParts(s, act);
    SharedProjects(s, act, a);
    TaskUpdate(s.tasks, act.task, TaskAfter(s, act), a);
    StoryAppend(s.log, Emits(s, act), a);
    ProjectWith(SharedAfter(s, act), s.tasks[act.task := TaskAfter(s, act)], s.log + Emits(s, act), a);
    ProjectWith(s, s.tasks, s.log, a);
  }

  lemma OwnStepProjects(s: State, act: Action, a: AgentId)
    requires Wired(s) && Enabled(s, act) && act.IsTaskStep() && act.task in s.tasks && s.tasks[act.task].agent == a
    requires Enabled(Project(s, a), act)
    ensures Project(Apply(s, act), a) == Apply(Project(s, a), act)
  {
    hide Apply, Enabled, SharedAfter, TaskAfter, Emits, OnlyTasks, Story, Concerns, Wired, Project;
    ConcernsOwner(s, act, a);
    EmitsAbout(s, act, a);
    OwnEnabledTask(s, act, a);
    ApplyParts(s, act);
    ApplyParts(Project(s, a), act);
    ProjectWith(s, s.tasks, s.log, a);
    TaskUpdate(s.tasks, act.task, s.tasks[act.task], a);
    SharedProjects(s, act, a);
    TaskUpdate(s.tasks, act.task, TaskAfter(s, act), a);
    StoryAppend(s.log, Emits(s, act), a);
    ProjectWith(SharedAfter(s, act), s.tasks[act.task := TaskAfter(s, act)], s.log + Emits(s, act), a);
  }

  lemma TaskStepProjects(s: State, act: Action, a: AgentId)
    requires Wired(s) && Enabled(s, act) && act.IsTaskStep()
    requires Concerns(s, act, a) ==> Enabled(Project(s, a), act)
    ensures Project(Apply(s, act), a) ==
      if Concerns(s, act, a) then Apply(Project(s, a), act) else Project(s, a)
  {
    ConcernsOwner(s, act, a);
    hide Apply, Enabled, Project, Wired, Concerns;
    if s.tasks[act.task].agent == a {
      OwnStepProjects(s, act, a);
    } else {
      OtherStepProjects(s, act, a);
    }
  }

  lemma StepProjects(s: State, act: Action, a: AgentId)
    requires Wired(s) && Enabled(s, act)
    requires Concerns(s, act, a) ==> Enabled(Project(s, a), act)
    ensures Project(Apply(s, act), a) ==
      if Concerns(s, act, a) then Apply(Project(s, a), act) else Project(s, a)
  {
    hide Apply, Enabled, EnvironmentAfter, Emits, OnlyAgent, OnlyPolls, OnlySems, OnlyKeys, OnlySlots, OnlyTasks, Story, Concerns, Wired;
    if act.IsTaskStep() {
      hide Project;
      TaskStepProjects(s, act, a);
    } else {
      EmitsAbout(s, act, a);
      ApplyParts(s, act);
      if Concerns(s, act, a) {
        EmitsProjects(s, act, a);
        ApplyParts(Project(s, a), act);
      }
      EnvironmentProjects(s, act, a);
      StoryAppend(s.log, Emits(s, act), a);
    }
  }

  /** Deleting every step of other agents from a run leaves a run, and it ends in
      what the full run holds for the agent: the same semaphores and permits, the
      same in-flight set, tasks, completed records, message fates and history. */
  lemma {:induction false} AgentsDoNotInterfere(s: State, tr: seq<Action>, a: AgentId)
    requires Sound(s) && Legal(s, tr)
    ensures Legal(Project(s, a), Own(s, tr, a))
    ensures After(Project(s, a), Own(s, tr, a)) == Project(After(s, tr), a)
    decreases |tr|
  {
    hide Apply, Enabled, Concerns, Project;
    if tr != [] {
      var act := tr[0];
      assert Wired(s);
      if Concerns(s, act, a) {
        OwnEnabled(s, act, a);
      }
      StepProjects(s, act, a);
      SoundStep(s, act);
      AgentsDoNotInterfere(Apply(s, act), tr[1..], a);
      if Concerns(s, act, a) {
        assert Own(s, tr, a)[1..] == Own(Apply(s, act), tr[1..], a);
      }
    }
  }

  /** From a cold start: an agent cannot tell whether others exist. */
  lemma AgentAlone(maxBytes: nat, tr: seq<Action>, a: AgentId)
    requires Legal(Init(maxBytes), tr)
    ensures Legal(Init(maxBytes), Own(Init(maxBytes), tr, a))
    ensures After(Init(maxBytes), Own(Init(maxBytes), tr, a)) == Project(After(Init(maxBytes), tr), a)
  {
    WiredInit(maxBytes);
    AgentsDoNotInterfere(Init(maxBytes), tr, a);
    assert Project(Init(maxBytes), a) == Init(maxBytes) by {
      SameParts(Project(Init(maxBytes), a), Init(maxBytes));
    }
  }

  lemma SameParts(s: State, r: State)
    requires s.maxBytes == r.maxBytes && s.draining == r.draining && s.log == r.log
    requires s.registry == r.registry && s.states == r.states && s.polls == r.polls && s.sems == r.sems
    requires s.tasks == r.tasks && s.completed == r.completed && s.slots == r.slots && s.limits == r.limits
    ensures s == r
  {
  }
}
