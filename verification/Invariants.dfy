/** What every step of the protocol keeps. */
module Invariants {
  import opened Common
  import opened Protocol
  import opened Steps
  import opened Counting

  /** A task, its message and its semaphore belong together. */
  predicate WiredTask(s: State, k: Task) {
    && k.seqNo in s.slots
    && k.agent == s.slots[k.seqNo].msg.dest && k.event == EventOf(s.slots[k.seqNo].msg)
    && (k.pc == Checked ==> k.conc >= 1)
    && (k.Ensured() ==> k.gen in s.sems && s.sems[k.gen].owner == k.agent)
  }

  ghost predicate Wired(s: State) {
    && (forall t :: t in s.tasks ==> WiredTask(s, s.tasks[t]))
    && (forall a :: a in s.states ==> s.states[a].permits in s.sems && s.sems[s.states[a].permits].owner == a)
    && (forall a :: a in s.registry ==> s.registry[a].conc >= 1)
    && (forall p :: p in s.polls ==> s.polls[p].conc >= 1)
    && (forall g :: g in s.sems ==> s.sems[g].capacity >= 1)
  }

  /** Every permit of every semaphore ever created is free or held by one task. */
  ghost predicate Conserved(s: State) {
    forall g :: g in s.sems ==> s.sems[g].free + Num(s.tasks, HoldersOf(g)) == s.sems[g].capacity
  }

  /** An id in the current in-flight set belongs to a task between its insert and its remove. */
  ghost predicate NoPhantoms(s: State) {
    forall k :: InFlight(s.states, k) ==> Num(s.tasks, Window(k)) >= 1
  }

  lemma SomeHolder(s: State, k: Key) returns (u: TaskId)
    requires NoPhantoms(s) && InFlight(s.states, k)
    ensures u in s.tasks && s.tasks[u].Id() == k && s.tasks[u].InWindow()
  {
    assert Num(s.tasks, Window(k)) >= 1;
    u :| u in Sel(s.tasks, Window(k));
  }

  ghost predicate Sound(s: State) {
    Wired(s) && Conserved(s) && NoPhantoms(s)
  }

  lemma WiredInit(maxBytes: nat)
    ensures Sound(Init(maxBytes))
  {
  }

  lemma WiredAt(s: State, t: TaskId)
    requires Wired(s) && t in s.tasks
    ensures WiredTask(s, s.tasks[t])
  {
  }

  lemma SemKept(s: State, a: Action, g: Gen)
    requires Enabled(s, a) && !a.Crash? && g in s.sems
    ensures g in Apply(s, a).sems
    ensures var sem, sem' := s.sems[g], Apply(s, a).sems[g];
      && sem'.owner == sem.owner && sem'.capacity == sem.capacity
      && sem'.free == sem.free - Bit(a.Acquire? && s.tasks[a.task].gen == g)
                      + Bit(a.Release? && s.tasks[a.task].gen == g)
  {
    SemsAre(s, a);
    hide Apply;
  }

  /** The agent for which an action may create an entry. */
  function Ensurer(s: State, a: Action): Option<AgentId>
    requires Enabled(s, a)
  {
    match a
    case Poll(p, _) => Some(s.polls[p].agent)
    case Ensure(t, _) => Some(s.tasks[t].agent)
    case _ => None
  }

  lemma SemBorn(s: State, a: Action, g: Gen)
    requires Wired(s) && Enabled(s, a) && !a.Crash? && g !in s.sems && g in Apply(s, a).sems
    ensures (a.Ensure? || a.Poll?) && g == a.gen
    ensures var ag, sem' := Ensurer(s, a).value, Apply(s, a).sems[g];
      && ag !in s.states && ag in Apply(s, a).states
      && sem'.owner == ag && sem'.free == sem'.capacity >= 1
      && sem'.capacity == (if a.Poll? then s.polls[a.poll].conc else s.tasks[a.task].conc)
  {
    SemsAre(s, a);
    StatesStep(s, a);
    hide Apply;
    if a.Ensure? {
      assert WiredTask(s, s.tasks[a.task]);
    }
  }

  lemma SlotsStep(s: State, a: Action, q: nat)
    requires Enabled(s, a) && q in s.slots
    ensures q in Apply(s, a).slots && Apply(s, a).slots[q].msg == s.slots[q].msg
  {
    SlotsAre(s, a);
    hide Apply;
  }

  lemma EnsureWired(s: State, t: TaskId, g: Gen)
    requires Wired(s) && Enabled(s, Ensure(t, g))
    ensures WiredTask(Apply(s, Ensure(t, g)), Apply(s, Ensure(t, g)).tasks[t])
  {
    assert WiredTask(s, s.tasks[t]);
    StatesWired(s, Ensure(t, g), s.tasks[t].agent);
  }

  lemma ActorWired(s: State, a: Action)
    requires Wired(s) && Enabled(s, a) && Actor(a).Some?
    ensures WiredTask(Apply(s, a), Apply(s, a).tasks[a.task])
  {
    if a.Ensure? {
      EnsureWired(s, a.task, a.gen);
    } else if a.IsTaskStep() {
      hide Apply, TaskAfter;
      CheckedConc(s, a);
      StepFrame(s, a);
      ActorMoves(s, a);
      assert WiredTask(s, s.tasks[a.task]);
      if s.tasks[a.task].gen in s.sems {
        SemKept(s, a, s.tasks[a.task].gen);
      }
      SlotsStep(s, a, s.tasks[a.task].seqNo);
    }
  }

  lemma CheckedConc(s: State, a: Action)
    requires Wired(s) && Enabled(s, a) && a.IsTaskStep()
    ensures TaskAfter(s, a).pc == Checked ==> TaskAfter(s, a).conc >= 1
    ensures TaskAfter(s, a).pc == Waiting ==> a.Ensure?
  {
  }

  /** Which actions touch the `states` map, and how. */
  lemma StatesStep(s: State, a: Action)
    requires Enabled(s, a)
    ensures Apply(s, a).states ==
      match a
      case Poll(p, g) => EnsureEntry(s.states, s.polls[p].agent, g)
      case Ensure(t, g) => EnsureEntry(s.states, s.tasks[t].agent, g)
      case Insert(t) =>
        if InFlight(s.states, s.tasks[t].Id()) then s.states
        else InsertInFlight(s.states, s.tasks[t].agent, s.tasks[t].event, s.tasks[t].gen)
      case Remove(t) => RemoveInFlight(s.states, s.tasks[t].agent, s.tasks[t].event)
      case ApplyChange(ag) => s.states - {ag}
      case Crash => map[]
      case _ => s.states
  {
    hide Apply, Emits, EnsureSem, EnsureEntry, InsertInFlight, RemoveInFlight, InFlight, TaskAfter, NextInLine;
    ApplyParts(s, a);
  }

  lemma StatesWired(s: State, a: Action, ag: AgentId)
    requires Wired(s) && Enabled(s, a) && ag in Apply(s, a).states
    ensures var g := Apply(s, a).states[ag].permits;
            g in Apply(s, a).sems && Apply(s, a).sems[g].owner == ag
  {
    hide Apply;
    StatesStep(s, a);
    if a.Poll? || a.Ensure? {
      SemsAre(s, a);
    } else {
      if a.Insert? {
        WiredAt(s, a.task);
      }
      if !a.Crash? {
        SemKept(s, a, Apply(s, a).states[ag].permits);
      }
    }
  }

  lemma RegistryWired(s: State, a: Action, ag: AgentId)
    requires Wired(s) && Enabled(s, a) && ag in Apply(s, a).registry
    ensures Apply(s, a).registry[ag].conc >= 1
  {
    RegistryIs(s, a);
    hide Apply;
  }

  lemma PollsWired(s: State, a: Action, p: PollId)
    requires Wired(s) && Enabled(s, a) && p in Apply(s, a).polls
    ensures Apply(s, a).polls[p].conc >= 1
  {
    PollsAre(s, a);
    hide Apply;
  }

  lemma WiredStep(s: State, a: Action)
    requires Wired(s) && Enabled(s, a)
    ensures Wired(Apply(s, a))
  {
    var s' := Apply(s, a);
    forall t | t in s'.tasks
      ensures WiredTask(s', s'.tasks[t])
    {
      BystanderWired(s, a, t);
    }
    forall ag | ag in s'.states
      ensures s'.states[ag].permits in s'.sems && s'.sems[s'.states[ag].permits].owner == ag
    {
      StatesWired(s, a, ag);
    }
    forall ag | ag in s'.registry
      ensures s'.registry[ag].conc >= 1
    {
      RegistryWired(s, a, ag);
    }
    forall p | p in s'.polls
      ensures s'.polls[p].conc >= 1
    {
      PollsWired(s, a, p);
    }
    forall g | g in s'.sems
      ensures s'.sems[g].capacity >= 1
    {
      if g in s.sems && !a.Crash? {
        SemKept(s, a, g);
      } else if !a.Crash? {
        SemBorn(s, a, g);
      }
    }
  }

  lemma BystanderWired(s: State, a: Action, t: TaskId)
    requires Wired(s) && Enabled(s, a) && t in Apply(s, a).tasks
    ensures WiredTask(Apply(s, a), Apply(s, a).tasks[t])
  {
    hide Apply, TaskAfter, Enabled, Wired;
    if Actor(a) == Some(t) {
      ActorWired(s, a);
    } else {
      if a.Crash? {
        CrashFrame(s);
        WiredAt(s, t);
      } else {
        StepFrame(s, a);
        WiredAt(s, t);
        if s.tasks[t].gen in s.sems {
          SemKept(s, a, s.tasks[t].gen);
        }
      }
      SlotsStep(s, a, s.tasks[t].seqNo);
    }
  }

  lemma ConservedAt(s: State, a: Action, g: Gen)
    requires Wired(s) && Conserved(s) && Enabled(s, a) && g in Apply(s, a).sems
    ensures Apply(s, a).sems[g].free + Num(Apply(s, a).tasks, HoldersOf(g)) == Apply(s, a).sems[g].capacity
  {
    hide Apply, TaskAfter, Enabled, Num;
    NumStep(s, a, HoldersOf(g));
    if a.Crash? {
      CrashFrame(s);
    } else {
      if g in s.sems {
        SemKept(s, a, g);
      } else {
        SemBorn(s, a, g);
        NumNone(s.tasks, HoldersOf(g));
      }
      if a.IsTaskStep() {
        ActorMoves(s, a);
      }
    }
  }

  lemma ConservedStep(s: State, a: Action)
    requires Wired(s) && Conserved(s) && Enabled(s, a)
    ensures Conserved(Apply(s, a))
  {
    forall g | g in Apply(s, a).sems
      ensures Apply(s, a).sems[g].free + Num(Apply(s, a).tasks, HoldersOf(g)) == Apply(s, a).sems[g].capacity
    {
      ConservedAt(s, a, g);
    }
  }

  /** How the current in-flight set moves. */
  lemma InFlightStep(s: State, a: Action, k: Key)
    requires Enabled(s, a)
    ensures InFlight(Apply(s, a).states, k) <==>
      || (a.Insert? && s.tasks[a.task].Id() == k)
      || (InFlight(s.states, k) && !a.Crash? && a != ApplyChange(k.agent)
          && !(a.Remove? && s.tasks[a.task].Id() == k))
  {
    hide Apply;
    StatesStep(s, a);
  }

  lemma NoPhantomsStep(s: State, a: Action)
    requires NoPhantoms(s) && Enabled(s, a)
    ensures NoPhantoms(Apply(s, a))
  {
    var s' := Apply(s, a);
    forall k | InFlight(s'.states, k)
      ensures Num(s'.tasks, Window(k)) >= 1
    {
      InFlightStep(s, a, k);
      WindowStep(s, a, k);
    }
  }

  lemma WindowStep(s: State, a: Action, k: Key)
    requires Enabled(s, a) && !a.Crash?
    ensures Num(Apply(s, a).tasks, Window(k))
         == Num(s.tasks, Window(k))
            + Bit(a.Insert? && s.tasks[a.task].Id() == k && !InFlight(s.states, k))
            - Bit(a.Remove? && s.tasks[a.task].Id() == k)
  {
    hide Apply, TaskAfter, Enabled, Num;
    NumStep(s, a, Window(k));
    if a.IsTaskStep() {
      ActorMoves(s, a);
    }
  }

  lemma SoundStep(s: State, a: Action)
    requires Sound(s) && Enabled(s, a)
    ensures Sound(Apply(s, a))
  {
    WiredStep(s, a);
    ConservedStep(s, a);
    NoPhantomsStep(s, a);
  }

  lemma {:induction false} SoundRun(s: State, tr: seq<Action>)
    requires Sound(s) && Legal(s, tr)
    ensures Sound(After(s, tr))
    decreases |tr|
  {
    if tr != [] {
      SoundStep(s, tr[0]);
      SoundRun(Apply(s, tr[0]), tr[1..]);
    }
  }

  lemma ReachableSound(s: State)
    requires Reachable(s)
    ensures Sound(s)
  {
    var tr :| Legal(Init(s.maxBytes), tr) && After(Init(s.maxBytes), tr) == s;
    WiredInit(s.maxBytes);
    SoundRun(Init(s.maxBytes), tr);
  }
}
