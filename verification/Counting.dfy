/** Counting dispatch tasks by what they are doing, and observations by what they say. */
module Counting {
  import opened Common
  import opened Protocol

  datatype Query =
    | HoldersOf(gen: Gen)
    | HoldersFor(agent: AgentId)
    | Window(key: Key)
    | BeforeStart(key: Key)
    | Unrecorded(key: Key)
    | Handlers(key: Key)

  predicate Fits(q: Query, k: Task) {
    match q
    case HoldersOf(g) => k.Holds() && k.gen == g
    case HoldersFor(a) => k.Holds() && k.agent == a
    case Window(key) => k.InWindow() && k.Id() == key
    case BeforeStart(key) => k.BeforeStart() && k.Id() == key
    case Unrecorded(key) => k.Unrecorded() && k.Id() == key
    case Handlers(key) => k.pc.Running? && k.Id() == key
  }

  function Sel(tasks: map<TaskId, Task>, q: Query): set<TaskId> {
    set t | t in tasks && Fits(q, tasks[t])
  }

  function Num(tasks: map<TaskId, Task>, q: Query): nat { |Sel(tasks, q)| }

  function Bit(b: bool): nat { if b then 1 else 0 }

  lemma SizeUpdate(a: set<TaskId>, b: set<TaskId>, t: TaskId)
    requires forall u :: u != t ==> (u in a <==> u in b)
    ensures |b| == |a| - Bit(t in a) + Bit(t in b)
  {
    var rest := a - {t};
    assert a == if t in a then rest + {t} else rest;
    assert b == if t in b then rest + {t} else rest;
  }

  lemma NumUpdate(tasks: map<TaskId, Task>, t: TaskId, k: Task, q: Query)
    ensures Num(tasks[t := k], q)
         == Num(tasks, q) - Bit(t in tasks && Fits(q, tasks[t])) + Bit(Fits(q, k))
  {
    SizeUpdate(Sel(tasks, q), Sel(tasks[t := k], q), t);
  }

  lemma SubsetSize<T>(a: set<T>, b: set<T>)
    requires a <= b
    ensures |a| <= |b|
  {
    assert b == a + (b - a);
  }

  lemma NumNone(tasks: map<TaskId, Task>, q: Query)
    requires forall t :: t in tasks ==> !Fits(q, tasks[t])
    ensures Num(tasks, q) == 0
  {
    assert Sel(tasks, q) == {};
  }

  /** Two tasks that are distinct and both fit. */
  lemma NumTwo(tasks: map<TaskId, Task>, t: TaskId, u: TaskId, q: Query)
    requires t != u && t in tasks && u in tasks && Fits(q, tasks[t]) && Fits(q, tasks[u])
    ensures Num(tasks, q) >= 2
  {
    assert Sel(tasks, q) == (Sel(tasks, q) - {t, u}) + {t, u};
    assert |{t, u}| == 2;
  }

  /** Every action but a crash writes at most one task. */
  function Actor(a: Action): Option<TaskId> {
    if a.IsTaskStep() || a.Deliver? then Some(a.task) else None
  }

  lemma StepFrame(s: State, a: Action)
    requires Enabled(s, a) && !a.Crash?
    ensures Actor(a).None? ==> Apply(s, a).tasks == s.tasks
    ensures a.IsTaskStep() ==> a.task in s.tasks && Apply(s, a).tasks == s.tasks[a.task := TaskAfter(s, a)]
    ensures a.Deliver? ==>
      && a.task !in s.tasks && a.seqNo in s.slots
      && Apply(s, a).tasks == s.tasks[a.task := NewTask(s.slots[a.seqNo].msg, a.seqNo)]
  {
    hide TaskAfter;
  }

  function NewTask(m: Message, q: nat): Task {
    Task(m.dest, EventOf(m), q, Received, 0, 0, Undecided)
  }

  lemma CrashFrame(s: State)
    ensures Apply(s, Crash).tasks.Keys == s.tasks.Keys
    ensures Apply(s, Crash).sems == map[] && Apply(s, Crash).states == map[]
    ensures forall t :: t in s.tasks ==> Apply(s, Crash).tasks[t] == Killed(s.tasks[t])
  {
  }

  /** What became of one task: killed, moved by its own step, just delivered, or left alone. */
  lemma TaskCases(s: State, a: Action, t: TaskId)
    requires Enabled(s, a) && t in Apply(s, a).tasks
    ensures if a.Crash? then t in s.tasks && Apply(s, a).tasks[t] == Killed(s.tasks[t])
            else if a.IsTaskStep() && a.task == t then t in s.tasks && Apply(s, a).tasks[t] == TaskAfter(s, a)
            else if a.Deliver? && a.task == t
            then t !in s.tasks && a.seqNo in s.slots && Apply(s, a).tasks[t] == NewTask(s.slots[a.seqNo].msg, a.seqNo)
            else t in s.tasks && Apply(s, a).tasks[t] == s.tasks[t]
  {
    hide Apply, Enabled, TaskAfter;
    if a.Crash? {
      CrashFrame(s);
    } else {
      StepFrame(s, a);
    }
  }

  lemma NumStep(s: State, a: Action, q: Query)
    requires Enabled(s, a)
    ensures Num(Apply(s, a).tasks, q) ==
      if a.Crash? then 0
      else if a.IsTaskStep()
      then Num(s.tasks, q) - Bit(Fits(q, s.tasks[a.task])) + Bit(Fits(q, TaskAfter(s, a)))
      else Num(s.tasks, q)
  {
    hide Apply, TaskAfter;
    if a.Crash? {
      CrashFrame(s);
      NumNone(Apply(s, a).tasks, q);
    } else {
      StepFrame(s, a);
      if a.IsTaskStep() {
        NumUpdate(s.tasks, a.task, TaskAfter(s, a), q);
      } else if a.Deliver? {
        NumUpdate(s.tasks, a.task, NewTask(s.slots[a.seqNo].msg, a.seqNo), q);
      }
    }
  }

  /** How the acting task moves through the phases the queries count. */
  lemma ActorMoves(s: State, a: Action)
    requires Enabled(s, a) && a.IsTaskStep()
    ensures var k, k' := s.tasks[a.task], TaskAfter(s, a);
      && k'.agent == k.agent && k'.event == k.event && k'.seqNo == k.seqNo
      && (a.Ensure? || k'.gen == k.gen)
      && (k'.Holds() <==> a.Acquire? || (k.Holds() && !a.Release?))
      && (a.Acquire? || a.Ensure? ==> !k.Holds()) && (a.Release? ==> k.Holds())
      && (k'.InWindow() <==>
            (a.Insert? && !InFlight(s.states, k.Id())) || (k.InWindow() && !a.Remove?))
      && (a.Insert? ==> !k.InWindow() && k.BeforeStart()) && (a.Remove? ==> k.InWindow())
      && (k'.BeforeStart() <==>
            || (a.Lookup? && !(a.ok && k.Id() in s.completed))
            || (k.BeforeStart() && !a.Spawn? && !(a.Insert? && InFlight(s.states, k.Id()))))
      && (a.Lookup? ==> !k.BeforeStart()) && (a.Spawn? ==> k.BeforeStart())
      && (k'.Unrecorded() <==> (a.Spawn? && a.ok) || (k.Unrecorded() && !a.Mark?))
      && (a.Spawn? ==> !k.Unrecorded()) && (a.Mark? ==> k.Unrecorded())
  {
  }

  datatype Counter =
    | Starts(key: Key)
    | Exits(key: Key)
    | FailedLookups(key: Key)
    | FailedMarks(key: Key)
    | Purges(key: Key)
    | Changes(agent: AgentId)
    | Restarts
    | Resolutions(task: TaskId)
    | SpawnFailures(agent: AgentId, seqNo: nat)
    | StoreFaults(agent: AgentId)

  predicate Says(o: Obs, c: Counter) {
    match c
    case Starts(k) => o.HandlerStarted? && o.key == k
    case Exits(k) => o.HandlerExited? && o.key == k
    case FailedLookups(k) => o == LookupFailed(k)
    case FailedMarks(k) => o == MarkFailed(k)
    case Purges(k) => o == RecordPurged(k)
    case Changes(a) => o == ChangeApplied(a)
    case Restarts => o.Restarted?
    case Resolutions(t) => o.Resolved? && o.task == t
    case SpawnFailures(a, q) => o.HandlerNotSpawned? && o.key.agent == a && o.seqNo == q
    case StoreFaults(a) =>
      || (o.LookupFailed? && o.key.agent == a)
      || (o.MarkFailed? && o.key.agent == a)
      || (o.RecordPurged? && o.key.agent == a)
  }

  function Tally(log: seq<Obs>, c: Counter): nat {
    if log == [] then 0 else Tally(log[..|log| - 1], c) + Bit(Says(log[|log| - 1], c))
  }

  /** Changes that found the agent's entry since the last restart. */
  function RecentChanges(log: seq<Obs>, a: AgentId): nat {
    if log == [] then 0
    else
      var o := log[|log| - 1];
      if o.Restarted? then 0 else RecentChanges(log[..|log| - 1], a) + Bit(o == ChangeApplied(a))
  }

  /** The most changes that any lifetime has had. */
  function Most(log: seq<Obs>, a: AgentId): nat {
    if log == [] then 0
    else
      var m, r := Most(log[..|log| - 1], a), RecentChanges(log, a);
      if r > m then r else m
  }

  /** The largest concurrency an agent was ever configured with. */
  function Peak(log: seq<Obs>, a: AgentId): nat {
    if log == [] then 0
    else
      var o := log[|log| - 1];
      var p := Peak(log[..|log| - 1], a);
      if o.Configured? && o.agent == a && o.conc > p then o.conc else p
  }

  /** The counts after one more observation. */
  lemma Told(log: seq<Obs>, o: Obs, c: Counter, ag: AgentId)
    ensures Tally(log + [o], c) == Tally(log, c) + Bit(Says(o, c))
    ensures RecentChanges(log + [o], ag)
         == if o.Restarted? then 0 else RecentChanges(log, ag) + Bit(o == ChangeApplied(ag))
    ensures Peak(log + [o], ag)
         == if o.Configured? && o.agent == ag && o.conc > Peak(log, ag) then o.conc else Peak(log, ag)
  {
    var after := log + [o];
    assert after[|after| - 1] == o && after[..|after| - 1] == log;
  }

  lemma LogStep(s: State, a: Action, c: Counter, ag: AgentId)
    requires Enabled(s, a)
    ensures Emits(s, a) == [] ==> Apply(s, a).log == s.log
    ensures Emits(s, a) != [] ==>
      && Tally(Apply(s, a).log, c) == Tally(s.log, c) + Bit(Says(Emits(s, a)[0], c))
      && RecentChanges(Apply(s, a).log, ag)
         == (if Emits(s, a)[0].Restarted? then 0
             else RecentChanges(s.log, ag) + Bit(Emits(s, a)[0] == ChangeApplied(ag)))
      && Peak(Apply(s, a).log, ag)
         == (var o := Emits(s, a)[0];
             if o.Configured? && o.agent == ag && o.conc > Peak(s.log, ag) then o.conc else Peak(s.log, ag))
  {
    LogGrows(s, a);
    hide Apply, Emits, Tally, RecentChanges, Peak;
    if Emits(s, a) == [] {
      assert s.log + Emits(s, a) == s.log;
    } else {
      assert Emits(s, a) == [Emits(s, a)[0]];
      Told(s.log, Emits(s, a)[0], c, ag);
    }
  }

  lemma LogGrows(s: State, a: Action)
    requires Enabled(s, a)
    ensures Apply(s, a).log == s.log + Emits(s, a)
    ensures |Emits(s, a)| <= 1
  {
  }

  lemma TallyStep(s: State, a: Action, c: Counter)
    requires Enabled(s, a)
    ensures Tally(Apply(s, a).log, c) == Tally(s.log, c) + Bit(Emits(s, a) != [] && Says(Emits(s, a)[0], c))
  {
    hide Apply, Emits, Tally, RecentChanges, Peak;
    LogStep(s, a, c, "");
  }

  lemma {:induction false} RecentWithinAll(log: seq<Obs>, a: AgentId)
    ensures RecentChanges(log, a) <= Tally(log, Changes(a))
  {
    if log != [] {
      RecentWithinAll(log[..|log| - 1], a);
    }
  }

  lemma RecentIsMost(log: seq<Obs>, a: AgentId)
    ensures RecentChanges(log, a) <= Most(log, a)
  {
  }

  lemma {:induction false} MostWithinAll(log: seq<Obs>, a: AgentId)
    ensures Most(log, a) <= Tally(log, Changes(a))
  {
    RecentWithinAll(log, a);
    if log != [] {
      MostWithinAll(log[..|log| - 1], a);
    }
  }

  lemma MostStep(s: State, a: Action, ag: AgentId)
    requires Enabled(s, a)
    ensures Most(Apply(s, a).log, ag) >= Most(s.log, ag)
  {
    LogGrows(s, a);
    hide Apply, Emits, RecentChanges;
    var e := Emits(s, a);
    if e == [] {
      assert s.log + e == s.log;
    } else {
      assert (s.log + e)[..|s.log + e| - 1] == s.log;
    }
  }
}
