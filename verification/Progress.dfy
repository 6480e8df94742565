/** Dispatch tasks come to rest, rest is clean, and no message is stranded. */
module Progress {
  import opened Common
  import opened Protocol
  import opened Counting
  import opened Invariants
  import opened NoLoss
  import opened Moves
  import opened Steps

  /** Phases a task still has before it. */
  function Remaining(k: Task): nat {
    match k.pc
    case Received => 12
    case Checked => 11
    case Waiting => 10
    case Permitted => 9
    case Armed => 8
    case Inserted => 7
    case Running => 6
    case Exited => 5
    case Marked => 4
    case SpawnFailed => 3
    case Resolving => 2
    case Rejecting => 1
    case Releasing => 1
    case Done => 0
  }

  /** The sum of the remaining phases of all tasks. */
  ghost function Work(tasks: map<TaskId, Task>): nat {
    if tasks == map[] then 0
    else var t :| t in tasks; Remaining(tasks[t]) + Work(tasks - {t})
  }

  lemma {:induction false} WorkOf(tasks: map<TaskId, Task>, t: TaskId)
    requires t in tasks
    ensures Work(tasks) == Remaining(tasks[t]) + Work(tasks - {t})
    decreases tasks
  {
    var u :| u in tasks && Work(tasks) == Remaining(tasks[u]) + Work(tasks - {u});
    if u != t {
      WorkOf(tasks - {u}, t);
      WorkOf(tasks - {t}, u);
      assert tasks - {u} - {t} == tasks - {t} - {u};
    }
  }

  lemma WorkUpdate(tasks: map<TaskId, Task>, t: TaskId, k: Task)
    requires t in tasks
    ensures Work(tasks[t := k]) == Work(tasks) - Remaining(tasks[t]) + Remaining(k)
  {
    WorkOf(tasks, t);
    WorkOf(tasks[t := k], t);
    assert tasks[t := k] - {t} == tasks - {t};
  }

  lemma ActorAdvances(s: State, a: Action)
    requires Enabled(s, a) && a.IsTaskStep()
    ensures Remaining(TaskAfter(s, a)) < Remaining(s.tasks[a.task])
  {
  }

  /** Every step of a dispatch task, whatever its outcome, uses up work. */
  lemma TaskStepWorks(s: State, a: Action)
    requires Enabled(s, a) && a.IsTaskStep()
    ensures Work(Apply(s, a).tasks) < Work(s.tasks)
  {
    hide Apply, Enabled, TaskAfter, Remaining;
    StepFrame(s, a);
    ActorAdvances(s, a);
    WorkUpdate(s.tasks, a.task, TaskAfter(s, a));
  }

  function TaskSteps(tr: seq<Action>): nat {
    if tr == [] then 0 else Bit(tr[0].IsTaskStep()) + TaskSteps(tr[1..])
  }

  // ---- graceful shutdown ---------------------------------------------------

  lemma DrainingStep(s: State, a: Action)
    requires s.draining && Enabled(s, a) && a != Crash
    ensures Apply(s, a).draining && !a.Deliver?
  {
  }

  /** Once the drain has begun no task is spawned, and the tasks that exist have
      only so many steps left among them, whatever the environment does meanwhile. */
  lemma {:induction false} DrainTerminates(s: State, tr: seq<Action>)
    requires s.draining && Legal(s, tr) && Crash !in tr
    ensures After(s, tr).tasks.Keys == s.tasks.Keys
    ensures TaskSteps(tr) + Work(After(s, tr).tasks) <= Work(s.tasks)
    decreases |tr|
  {
    hide Apply, Enabled, Work;
    if tr != [] {
      var a := tr[0];
      DrainingStep(s, a);
      StepFrame(s, a);
      if a.IsTaskStep() {
        TaskStepWorks(s, a);
      }
      DrainTerminates(Apply(s, a), tr[1..]);
    }
  }

  ghost predicate Quiet(s: State) { forall t :: t in s.tasks ==> s.tasks[t].pc == Done }

  /** The step a task takes when the store works, its handler exits and its ack arrives. */
  function Smooth(s: State, t: TaskId, g: Gen): Action
    requires t in s.tasks && s.tasks[t].pc != Done
  {
    match s.tasks[t].pc
    case Received => Check(t)
    case Checked => Ensure(t, g)
    case Waiting => Acquire(t)
    case Permitted => Lookup(t, true)
    case Armed => Insert(t)
    case Inserted => Spawn(t, true)
    case Running => Exit(t)
    case Exited => Mark(t, true)
    case Marked => Remove(t)
    case SpawnFailed => Remove(t)
    case Rejecting => Resolve(t, true)
    case Resolving => Resolve(t, true)
    case Releasing => Release(t)
  }

  predicate IsSmooth(a: Action) {
    a.IsTaskStep() && (a.Lookup? || a.Mark? ==> a.ok) && (a.Resolve? ==> a.arrived)
  }

  lemma SmoothEarly(s: State, t: TaskId, g: Gen)
    requires t in s.tasks && s.tasks[t].seqNo in s.slots && g !in s.sems
    requires s.tasks[t].pc == Received || s.tasks[t].pc == Checked || s.tasks[t].pc == Permitted || s.tasks[t].pc == Armed
    ensures Enabled(s, Smooth(s, t, g)) && IsSmooth(Smooth(s, t, g))
  {
  }

  lemma SmoothPermit(s: State, t: TaskId, g: Gen)
    requires t in s.tasks && s.tasks[t].gen in s.sems
    requires s.tasks[t].pc == Releasing || (s.tasks[t].pc == Waiting && s.sems[s.tasks[t].gen].free > 0)
    ensures Enabled(s, Smooth(s, t, g)) && IsSmooth(Smooth(s, t, g))
  {
  }

  lemma SmoothLate(s: State, t: TaskId, g: Gen)
    requires t in s.tasks && (s.tasks[t].InWindow() || s.tasks[t].pc.Rejecting? || s.tasks[t].pc.Resolving?)
    ensures Enabled(s, Smooth(s, t, g)) && IsSmooth(Smooth(s, t, g))
  {
  }

  /** Any task that is not waiting for a permit can step. */
  lemma SmoothEnabled(s: State, t: TaskId, g: Gen)
    requires Wired(s) && t in s.tasks && s.tasks[t].pc != Done && g !in s.sems
    requires s.tasks[t].pc == Waiting ==> s.tasks[t].gen in s.sems && s.sems[s.tasks[t].gen].free > 0
    ensures Enabled(s, Smooth(s, t, g)) && IsSmooth(Smooth(s, t, g))
  {
    hide Enabled, Wired, Smooth, IsSmooth;
    WiredAt(s, t);
    match s.tasks[t].pc {
      case Received => SmoothEarly(s, t, g);
      case Checked => SmoothEarly(s, t, g);
      case Permitted => SmoothEarly(s, t, g);
      case Armed => SmoothEarly(s, t, g);
      case Waiting => SmoothPermit(s, t, g);
      case Releasing => SmoothPermit(s, t, g);
      case _ => SmoothLate(s, t, g);
    }
  }

  /** No deadlock: while any task is unfinished, some task can step.  A waiting
      task that finds no permit free points at one that holds it. */
  lemma SomeTaskCanStep(s: State, t: TaskId) returns (a: Action)
    requires Sound(s) && t in s.tasks && s.tasks[t].pc != Done
    ensures Enabled(s, a) && IsSmooth(a)
  {
    var g := FreshNumber(s.sems.Keys);
    var u := t;
    if s.tasks[t].pc == Waiting {
      assert WiredTask(s, s.tasks[t]);
      var h := s.tasks[t].gen;
      assert s.sems[h].free + Num(s.tasks, HoldersOf(h)) == s.sems[h].capacity;
      if s.sems[h].free == 0 {
        u :| u in Sel(s.tasks, HoldersOf(h));
      }
    }
    SmoothEnabled(s, u, g);
    a := Smooth(s, u, g);
  }

  lemma QuietFlight(s: State, k: Key)
    requires NoPhantoms(s) && Quiet(s)
    ensures !InFlight(s.states, k)
  {
    NumNone(s.tasks, Window(k));
  }

  lemma QuietPermit(s: State, g: Gen)
    requires Wired(s) && Conserved(s) && Quiet(s) && g in s.sems
    ensures s.sems[g].free == s.sems[g].capacity >= 1
  {
    NumNone(s.tasks, HoldersOf(g));
    assert s.sems[g].free + Num(s.tasks, HoldersOf(g)) == s.sems[g].capacity;
  }

  /** When every task has ended, every in-flight set is empty and every permit is free. */
  lemma QuietIsClean(s: State)
    requires Sound(s) && Quiet(s)
    ensures forall a :: a in s.states ==> s.states[a].inFlight == {}
    ensures forall g :: g in s.sems ==> s.sems[g].free == s.sems[g].capacity >= 1
  {
    hide Wired, Conserved, NoPhantoms, Quiet;
    forall a | a in s.states
      ensures s.states[a].inFlight == {}
    {
      forall e | e in s.states[a].inFlight
        ensures false
      {
        QuietFlight(s, Key(a, e));
      }
    }
    forall g | g in s.sems
      ensures s.sems[g].free == s.sems[g].capacity >= 1
    {
      QuietPermit(s, g);
    }
  }

  /** A shutdown that waits for its tasks ends: from any state, some schedule of
      task steps of bounded length reaches rest, and by `DrainTerminates` no
      schedule can go on longer. */
  lemma {:induction false} ComesToRest(s: State) returns (tr: seq<Action>)
    requires Sound(s)
    ensures Legal(s, tr) && Quiet(After(s, tr)) && Sound(After(s, tr))
    ensures forall a :: a in tr ==> IsSmooth(a)
    ensures |tr| <= Work(s.tasks)
    decreases Work(s.tasks)
  {
    hide Apply, Enabled, Work, Sound, Conserved, Wired, NoPhantoms;
    if t :| t in s.tasks && s.tasks[t].pc != Done {
      var a := SomeTaskCanStep(s, t);
      TaskStepWorks(s, a);
      SoundStep(s, a);
      var rest := ComesToRest(Apply(s, a));
      tr := [a] + rest;
      assert tr[0] == a && tr[1..] == rest;
    } else {
      tr := [];
    }
  }

  // ---- no message is stranded ----------------------------------------------

  /** What task steps and redeliveries do to the stream: nothing but settle. */
  predicate OnlySettles(before: map<nat, Slot>, after: map<nat, Slot>) {
    && after.Keys == before.Keys
    && forall q :: q in before ==>
         && after[q].msg == before[q].msg
         && (after[q] == before[q] || (before[q].fate == Pending && after[q].fate.Settled?))
  }

  predicate Harmless(s: State, a: Action) {
    a.IsTaskStep() || (a.Deliver? && a.seqNo in s.slots && s.slots[a.seqNo].fate == Pending)
  }

  lemma HarmlessSlots(s: State, a: Action)
    requires Enabled(s, a) && Harmless(s, a)
    ensures Apply(s, a).draining == s.draining
    ensures Apply(s, a).slots ==
      if a.Resolve? && a.arrived && s.tasks[a.task].seqNo in s.slots && s.slots[s.tasks[a.task].seqNo].fate == Pending
      then var q := s.tasks[a.task].seqNo; s.slots[q := s.slots[q].(fate := Settled(s.tasks[a.task].outcome))]
      else s.slots
  {
    hide Apply, TaskAfter, Emits, InFlight, InsertInFlight, RemoveInFlight, EnsureEntry, EnsureSem, NextInLine;
    ApplyParts(s, a);
  }

  lemma HarmlessStep(s: State, a: Action)
    requires Enabled(s, a) && Harmless(s, a)
    ensures Apply(s, a).draining == s.draining && OnlySettles(s.slots, Apply(s, a).slots)
    ensures !a.Resolve? ==> Apply(s, a).slots == s.slots
    ensures a.Resolve? && s.tasks[a.task].seqNo in s.slots ==>
      Apply(s, a).slots == s.slots[s.tasks[a.task].seqNo := Apply(s, a).slots[s.tasks[a.task].seqNo]]
  {
    hide Apply, Enabled;
    HarmlessSlots(s, a);
  }

  /** Only this task is unfinished; it has message q and has not dropped it. */
  ghost predicate Solo(s: State, t: TaskId, q: nat) {
    && t in s.tasks && s.tasks[t].seqNo == q && q in s.slots
    && (forall u :: u in s.tasks && u != t ==> s.tasks[u].pc == Done)
    && (if s.tasks[t].pc.Releasing? || s.tasks[t].pc.Done?
        then s.slots[q].fate.Settled? else s.slots[q].fate == Pending)
  }

  lemma SoloActs(s: State, a: Action, t: TaskId, q: nat)
    requires Solo(s, t, q) && Enabled(s, a) && a.IsTaskStep()
    ensures a.task == t && s.tasks[t].pc != Done
    ensures TaskAfter(s, a).seqNo == q
    ensures TaskAfter(s, a).pc.Releasing? || TaskAfter(s, a).pc.Done? ==>
      a.Resolve? || a.Release? || (a.Insert? && s.tasks[t].pc == Armed && InFlight(s.states, s.tasks[t].Id()))
    ensures !TaskAfter(s, a).pc.Releasing? && !TaskAfter(s, a).pc.Done? ==> !a.Resolve? && !s.tasks[t].pc.Releasing?
  {
  }

  /** The lone task cannot find its event in flight. */
  lemma SoloNotInFlight(s: State, t: TaskId, q: nat)
    requires NoPhantoms(s) && Solo(s, t, q) && s.tasks[t].pc == Armed
    ensures !InFlight(s.states, s.tasks[t].Id())
  {
    NumNone(s.tasks, Window(s.tasks[t].Id()));
  }

  lemma ArrivedSettles(s: State, t: TaskId, q: nat)
    requires Enabled(s, Resolve(t, true)) && s.tasks[t].seqNo == q && q in s.slots && s.slots[q].fate == Pending
    ensures q in Apply(s, Resolve(t, true)).slots && Apply(s, Resolve(t, true)).slots[q].fate.Settled?
  {
    hide Apply, Enabled;
    HarmlessSlots(s, Resolve(t, true));
  }

  lemma SmoothHarmless(s: State, a: Action)
    requires IsSmooth(a)
    ensures Harmless(s, a)
  {
  }

  lemma SoloStep(s: State, a: Action, t: TaskId, q: nat)
    requires NoPhantoms(s) && Solo(s, t, q) && Enabled(s, a) && IsSmooth(a)
    ensures Solo(Apply(s, a), t, q)
    ensures Apply(s, a).slots == s.slots[q := Apply(s, a).slots[q]]
  {
    hide Apply, Enabled, TaskAfter, InFlight, NoPhantoms, Harmless, OnlySettles;
    assert Harmless(s, a) by { SmoothHarmless(s, a); }
    SoloActs(s, a, t, q);
    StepFrame(s, a);
    HarmlessStep(s, a);
    if a.Resolve? {
      ResolveBefore(s, t);
      ArrivedSettles(s, t, q);
    } else if a.Release? {
      ReleaseBefore(s, t);
    } else if s.tasks[t].pc == Armed {
      SoloNotInFlight(s, t, q);
    }
  }

  lemma ResolveBefore(s: State, t: TaskId)
    requires Enabled(s, Resolve(t, true))
    ensures t in s.tasks && !s.tasks[t].pc.Releasing? && !s.tasks[t].pc.Done?
  {
  }

  lemma ReleaseBefore(s: State, t: TaskId)
    requires Enabled(s, Release(t))
    ensures t in s.tasks && s.tasks[t].pc.Releasing?
  {
  }

  lemma {:induction false} SoloRun(s: State, tr: seq<Action>, t: TaskId, q: nat)
    requires Sound(s) && Solo(s, t, q) && Legal(s, tr) && forall a :: a in tr ==> IsSmooth(a)
    ensures Solo(After(s, tr), t, q)
    ensures After(s, tr).slots == s.slots[q := After(s, tr).slots[q]]
    decreases |tr|
  {
    hide Apply, Enabled, Solo;
    assert q in s.slots && t in s.tasks by { SoloParts(s, t, q); }
    if tr != [] {
      SoloStep(s, tr[0], t, q);
      SoundStep(s, tr[0]);
      SoloRun(Apply(s, tr[0]), tr[1..], t, q);
    }
  }

  lemma SoloParts(s: State, t: TaskId, q: nat)
    requires Solo(s, t, q)
    ensures q in s.slots && t in s.tasks
  {
  }

  lemma Redelivered(s: State, t: TaskId, q: nat)
    requires Quiet(s) && Enabled(s, Deliver(t, q)) && s.slots[q].fate == Pending
    ensures Solo(Apply(s, Deliver(t, q)), t, q) && Apply(s, Deliver(t, q)).slots == s.slots
  {
  }

  /** Whatever order its steps come in, a redelivery into a daemon at rest, run to
      rest, settles its message and no other. */
  lemma RedeliverySettles(s: State, t: TaskId, q: nat, tr: seq<Action>)
    requires Sound(s) && Quiet(s) && Enabled(s, Deliver(t, q)) && s.slots[q].fate == Pending
    requires Legal(Apply(s, Deliver(t, q)), tr) && forall a :: a in tr ==> IsSmooth(a)
    requires Quiet(After(Apply(s, Deliver(t, q)), tr))
    ensures var s' := After(Apply(s, Deliver(t, q)), tr);
      q in s'.slots && s'.slots[q].fate.Settled? && s'.slots == s.slots[q := s'.slots[q]]
  {
    hide Apply, Enabled;
    Redelivered(s, t, q);
    SoundStep(s, Deliver(t, q));
    SoloRun(Apply(s, Deliver(t, q)), tr, t, q);
  }

  /** Every action of the run is a smooth task step or a redelivery. */
  ghost predicate Calm(s: State, tr: seq<Action>)
    requires Legal(s, tr)
    decreases |tr|
  {
    tr == [] || (IsCalm(s, tr[0]) && Calm(Apply(s, tr[0]), tr[1..]))
  }

  lemma {:induction false} SmoothIsCalm(s: State, tr: seq<Action>)
    requires Legal(s, tr) && forall a :: a in tr ==> IsSmooth(a)
    ensures Calm(s, tr) && After(s, tr).draining == s.draining && OnlySettles(s.slots, After(s, tr).slots)
    decreases |tr|
  {
    hide Apply, Enabled;
    if tr != [] {
      assert IsSmooth(tr[0]);
      HarmlessStep(s, tr[0]);
      SmoothIsCalm(Apply(s, tr[0]), tr[1..]);
    }
  }

  lemma {:induction false} CalmAppend(s: State, tr: seq<Action>, more: seq<Action>)
    requires Legal(s, tr) && Legal(After(s, tr), more) && Calm(s, tr) && Calm(After(s, tr), more)
    ensures Legal(s, tr + more) && Calm(s, tr + more)
    decreases |tr|
  {
    hide Apply, Enabled, Harmless, IsSmooth;
    RunAppend(s, tr, more);
    if tr == [] {
      assert tr + more == more;
    } else {
      CalmAppend(Apply(s, tr[0]), tr[1..], more);
      assert (tr + more)[1..] == tr[1..] + more;
    }
  }

  function AllPending(slots: map<nat, Slot>): set<nat> {
    set q | q in slots && slots[q].fate == Pending
  }

  /** Settle every pending message of a daemon at rest, one redelivery at a time. */
  lemma {:induction false} SettleAll(s: State) returns (tr: seq<Action>)
    requires Sound(s) && Quiet(s) && !s.draining
    ensures Legal(s, tr) && Calm(s, tr) && Quiet(After(s, tr))
    ensures AllPending(After(s, tr).slots) == {} && OnlySettles(s.slots, After(s, tr).slots)
    decreases AllPending(s.slots)
  {
    hide Apply, Enabled, Sound, Work;
    if q :| q in AllPending(s.slots) {
      var t := FreshNumber(s.tasks.Keys);
      var d := Deliver(t, q);
      CanRedeliver(s, t, q);
      SoundStep(s, d);
      var s1 := Apply(s, d);
      var run := ComesToRest(s1);
      RedeliverySettles(s, t, q, run);
      HarmlessStep(s, d);
      SmoothIsCalm(s1, run);
      var s2 := After(s1, run);
      assert q !in AllPending(s2.slots) && AllPending(s2.slots) <= AllPending(s.slots);
      var rest := SettleAll(s2);
      var first := [d] + run;
      assert first[0] == d && first[1..] == run;
      assert Legal(s, first) && After(s, first) == s2 && Calm(s, first);
      RunAppend(s, first, rest);
      CalmAppend(s, first, rest);
      tr := first + rest;
    } else {
      tr := [];
    }
  }

  lemma CanRedeliver(s: State, t: TaskId, q: nat)
    requires !s.draining && t !in s.tasks && q in s.slots && s.slots[q].fate == Pending
    ensures Enabled(s, Deliver(t, q)) && Harmless(s, Deliver(t, q))
  {
  }

  // ---- redeliveries at once ------------------------------------------------

  /** Not dropped, resolved or ended. */
  predicate Unresolved(k: Task) { !k.pc.Releasing? && !k.pc.Done? }

  /** The unresolved tasks have messages of this set, which are pending or settled. */
  ghost predicate Batch(s: State, pend: set<nat>) {
    && AllPending(s.slots) <= pend
    && (forall q :: q in pend ==> q in s.slots && (s.slots[q].fate == Pending || s.slots[q].fate.Settled?))
    && (forall t :: t in s.tasks && Unresolved(s.tasks[t]) ==> s.tasks[t].seqNo in pend)
  }

  predicate SettledFor(slots: map<nat, Slot>, q: nat, k: Key) {
    q in slots && KeyOf(slots[q].msg) == k && slots[q].fate.Settled?
  }

  /** A message of the event is settled, or a task is on it. */
  ghost predicate Attended(s: State, pend: set<nat>, k: Key) {
    || (exists q :: q in pend && SettledFor(s.slots, q, k))
    || (exists t :: t in s.tasks && s.tasks[t].Id() == k && Unresolved(s.tasks[t]))
  }

  predicate IsCalm(s: State, a: Action) { IsSmooth(a) || (a.Deliver? && Harmless(s, a)) }

  lemma LeavesUnresolved(s: State, a: Action)
    requires Enabled(s, a) && a.IsTaskStep()
    ensures var k, k' := s.tasks[a.task], TaskAfter(s, a);
      && (Unresolved(k') ==> Unresolved(k))
      && (Unresolved(k) && !Unresolved(k') ==> a.Resolve? || (a.Insert? && k.pc == Armed && InFlight(s.states, k.Id())))
  {
  }

  lemma BatchTask(s: State, a: Action, pend: set<nat>, t: TaskId)
    requires Wired(s) && Batch(s, pend) && Enabled(s, a) && IsCalm(s, a)
    requires t in Apply(s, a).tasks && Unresolved(Apply(s, a).tasks[t])
    ensures Apply(s, a).tasks[t].seqNo in pend
  {
    hide Apply, Enabled, TaskAfter, Wired;
    TaskCases(s, a, t);
    if a.IsTaskStep() && a.task == t {
      ActorMoves(s, a);
      LeavesUnresolved(s, a);
    }
  }

  lemma BatchStep(s: State, a: Action, pend: set<nat>)
    requires Wired(s) && Batch(s, pend) && Enabled(s, a) && IsCalm(s, a)
    ensures Batch(Apply(s, a), pend)
  {
    hide Apply, Enabled, TaskAfter, Wired;
    HarmlessStep(s, a);
    forall t | t in Apply(s, a).tasks && Unresolved(Apply(s, a).tasks[t])
      ensures Apply(s, a).tasks[t].seqNo in pend
    {
      BatchTask(s, a, pend, t);
    }
  }

  /** A task that leaves an event settles its message, or leaves another in the window. */
  lemma LeavesAttended(s: State, a: Action, pend: set<nat>)
    requires Wired(s) && NoPhantoms(s) && Batch(s, pend) && Enabled(s, a) && IsCalm(s, a) && a.IsTaskStep()
    requires Unresolved(s.tasks[a.task]) && !Unresolved(TaskAfter(s, a))
    ensures Attended(Apply(s, a), pend, s.tasks[a.task].Id())
  {
    hide Apply, Enabled, TaskAfter, InFlight, Wired, NoPhantoms, AllPending;
    StepFrame(s, a);
    var t, s' := a.task, Apply(s, a);
    var k := s.tasks[t].Id();
    LeavesUnresolved(s, a);
    WiredAt(s, t);
    if a.Resolve? {
      HarmlessSlots(s, a);
      assert SettledFor(s'.slots, s.tasks[t].seqNo, k);
    } else {
      var u := SomeHolder(s, k);
      assert u != t && s'.tasks[u] == s.tasks[u];
    }
  }

  lemma StaysUnresolved(s: State, a: Action)
    requires Enabled(s, a) && a.IsTaskStep() && a.task in s.tasks
    ensures a.task in Apply(s, a).tasks && Apply(s, a).tasks[a.task] == TaskAfter(s, a)
    ensures TaskAfter(s, a).Id() == s.tasks[a.task].Id()
  {
    hide Apply, Enabled, TaskAfter;
    StepFrame(s, a);
    ActorMoves(s, a);
  }

  /** The last task on an event does not leave it without a settlement: a dropped
      copy leaves another task in the window, and an ack or term arrives. */
  lemma AttendedStep(s: State, a: Action, pend: set<nat>, k: Key)
    requires Wired(s) && NoPhantoms(s) && Batch(s, pend) && Enabled(s, a) && IsCalm(s, a)
    requires Attended(s, pend, k)
    ensures Attended(Apply(s, a), pend, k)
  {
    hide Apply, Enabled, TaskAfter, InFlight, Wired, NoPhantoms, Batch;
    var s' := Apply(s, a);
    if q :| q in pend && SettledFor(s.slots, q, k) {
      HarmlessStep(s, a);
      assert SettledFor(s'.slots, q, k);
    } else {
      var t :| t in s.tasks && s.tasks[t].Id() == k && Unresolved(s.tasks[t]);
      if !(a.IsTaskStep() && a.task == t) {
        StillThere(s, a, t);
      } else if Unresolved(TaskAfter(s, a)) {
        StaysUnresolved(s, a);
      } else {
        LeavesAttended(s, a, pend);
      }
    }
  }

  lemma StillThere(s: State, a: Action, t: TaskId)
    requires Enabled(s, a) && IsCalm(s, a) && t in s.tasks && !(a.IsTaskStep() && a.task == t)
    ensures t in Apply(s, a).tasks && Apply(s, a).tasks[t] == s.tasks[t]
  {
    hide Apply, Enabled, TaskAfter;
    StepFrame(s, a);
  }

  lemma DeliveredAttended(s: State, t: TaskId, q: nat, pend: set<nat>)
    requires Enabled(s, Deliver(t, q)) && s.slots[q].fate == Pending
    ensures Attended(Apply(s, Deliver(t, q)), pend, KeyOf(s.slots[q].msg))
  {
    RedeliverIs(s, t, q);
    var s' := Apply(s, Deliver(t, q));
    assert t in s'.tasks && s'.tasks[t].Id() == KeyOf(s.slots[q].msg) && Unresolved(s'.tasks[t]);
  }

  lemma {:induction false} AttendedRun(s: State, tr: seq<Action>, pend: set<nat>, k: Key)
    requires Sound(s) && Batch(s, pend) && Legal(s, tr) && Calm(s, tr)
    requires Attended(s, pend, k) || exists t, q :: Deliver(t, q) in tr && q in pend && KeyOf(s.slots[q].msg) == k
    ensures Attended(After(s, tr), pend, k)
    decreases |tr|
  {
    hide Apply, Enabled, Attended, Harmless, IsSmooth;
    if tr != [] {
      var a := tr[0];
      var s1, rest := Apply(s, a), tr[1..];
      assert Wired(s) && NoPhantoms(s);
      BatchStep(s, a, pend);
      SoundStep(s, a);
      if Attended(s, pend, k) {
        AttendedStep(s, a, pend, k);
      } else {
        var t, q :| Deliver(t, q) in tr && q in pend && KeyOf(s.slots[q].msg) == k;
        if a == Deliver(t, q) {
          assert s.slots[q].fate == Pending by { DeliversPending(s, t, q); }
          DeliveredAttended(s, t, q, pend);
        } else {
          SlotsStep(s, a, q);
          assert Deliver(t, q) in rest;
        }
      }
      AttendedRun(s1, rest, pend, k);
    }
  }

  lemma DeliversPending(s: State, t: TaskId, q: nat)
    requires IsCalm(s, Deliver(t, q))
    ensures q in s.slots && s.slots[q].fate == Pending
  {
  }

  lemma QuietBatch(s: State)
    requires Quiet(s)
    ensures Batch(s, AllPending(s.slots))
  {
  }

  /** Redeliveries into a daemon at rest, any number of them, of any pending messages,
      at any time and in any interleaving with task steps, run to rest: for every
      message redelivered, a message of its event that was pending is settled.  It
      is that very message when no other of its event was pending. */
  lemma RedeliveriesSettle(s: State, tr: seq<Action>, t: TaskId, q: nat)
    requires Sound(s) && Quiet(s) && Legal(s, tr) && Calm(s, tr) && Quiet(After(s, tr))
    requires Deliver(t, q) in tr && q in AllPending(s.slots)
    ensures exists p :: p in AllPending(s.slots) && KeyOf(s.slots[p].msg) == KeyOf(s.slots[q].msg)
                     && p in After(s, tr).slots && After(s, tr).slots[p].fate.Settled?
    ensures (forall p :: p in AllPending(s.slots) && KeyOf(s.slots[p].msg) == KeyOf(s.slots[q].msg) ==> p == q) ==>
      q in After(s, tr).slots && After(s, tr).slots[q].fate.Settled?
  {
    hide Apply, Enabled, Sound, Calm, Legal, After;
    var pend, k, s' := AllPending(s.slots), KeyOf(s.slots[q].msg), After(s, tr);
    QuietBatch(s);
    AttendedRun(s, tr, pend, k);
    var p :| p in pend && SettledFor(s'.slots, p, k);
    MessageKept(s, tr, p);
  }

  /** The pending messages of one event. */
  function PendingOf(slots: map<nat, Slot>, k: Key): set<nat> {
    set q | q in slots && slots[q].fate == Pending && KeyOf(slots[q].msg) == k
  }

  /** A run to rest, by any schedule, in which every message of the event that was
      pending is redelivered, at any time and any number of times. */
  ghost predicate IsRound(s: State, tr: seq<Action>, k: Key) {
    && Legal(s, tr) && Calm(s, tr) && Quiet(After(s, tr))
    && forall q :: q in PendingOf(s.slots, k) ==> exists t :: Deliver(t, q) in tr
  }

  /** One round after the other, from a daemon at rest. */
  ghost predicate AreRounds(s: State, rounds: seq<seq<Action>>, k: Key)
    decreases |rounds|
  {
    rounds == [] || (IsRound(s, rounds[0], k) && AreRounds(After(s, rounds[0]), rounds[1..], k))
  }

  function AfterRounds(s: State, rounds: seq<seq<Action>>, k: Key): State
    requires AreRounds(s, rounds, k)
    decreases |rounds|
  {
    if rounds == [] then s else AfterRounds(After(s, rounds[0]), rounds[1..], k)
  }

  lemma {:induction false} CalmRun(s: State, tr: seq<Action>)
    requires Sound(s) && Legal(s, tr) && Calm(s, tr)
    ensures Sound(After(s, tr)) && OnlySettles(s.slots, After(s, tr).slots)
    decreases |tr|
  {
    hide Apply, Enabled, Sound;
    if tr != [] {
      HarmlessStep(s, tr[0]);
      SoundStep(s, tr[0]);
      CalmRun(Apply(s, tr[0]), tr[1..]);
    }
  }

  lemma PendingShrinks(before: map<nat, Slot>, after: map<nat, Slot>, k: Key)
    requires OnlySettles(before, after)
    ensures PendingOf(after, k) <= PendingOf(before, k)
  {
  }

  /** Each round settles one of the event's pending messages at least. */
  lemma RoundSettlesOne(s: State, tr: seq<Action>, k: Key)
    requires Sound(s) && Quiet(s) && IsRound(s, tr, k) && PendingOf(s.slots, k) != {}
    ensures PendingOf(After(s, tr).slots, k) < PendingOf(s.slots, k)
  {
    hide Apply, Enabled, Sound, Calm, Legal, After, Quiet;
    var q :| q in PendingOf(s.slots, k);
    var t :| Deliver(t, q) in tr;
    RedeliveriesSettle(s, tr, t, q);
    CalmRun(s, tr);
    PendingShrinks(s.slots, After(s, tr).slots, k);
    var p :| p in AllPending(s.slots) && KeyOf(s.slots[p].msg) == k && p in After(s, tr).slots && After(s, tr).slots[p].fate.Settled?;
    assert p in PendingOf(s.slots, k) && p !in PendingOf(After(s, tr).slots, k);
  }

  /** As many rounds as an event has pending messages settle them all, whatever the
      schedules, and whatever else is redelivered in between. */
  lemma {:induction false} RoundsSettleAll(s: State, rounds: seq<seq<Action>>, k: Key)
    requires Sound(s) && Quiet(s) && AreRounds(s, rounds, k) && |PendingOf(s.slots, k)| <= |rounds|
    ensures PendingOf(AfterRounds(s, rounds, k).slots, k) == {}
    decreases |rounds|
  {
    hide Sound, Quiet, PendingOf, Calm, Legal, After;
    if rounds != [] {
      var s1 := After(s, rounds[0]);
      CalmRun(s, rounds[0]);
      PendingShrinks(s.slots, s1.slots, k);
      if PendingOf(s.slots, k) != {} {
        RoundSettlesOne(s, rounds[0], k);
        Smaller(PendingOf(s1.slots, k), PendingOf(s.slots, k));
      }
      RoundsSettleAll(s1, rounds[1..], k);
    }
  }

  /** A drop without ack strands nothing, for every schedule: from any reachable state,
      any run to rest, and then as many rounds as the event had pending messages. */
  lemma NoScheduleStrands(s: State, first: seq<Action>, rounds: seq<seq<Action>>, k: Key)
    requires Reachable(s) && Legal(s, first) && Calm(s, first) && Quiet(After(s, first))
    requires AreRounds(After(s, first), rounds, k) && |PendingOf(s.slots, k)| <= |rounds|
    ensures PendingOf(AfterRounds(After(s, first), rounds, k).slots, k) == {}
  {
    hide Reachable, Sound, Quiet, PendingOf, Calm, Legal, After, AreRounds;
    ReachableSound(s);
    CalmRun(s, first);
    PendingShrinks(s.slots, After(s, first).slots, k);
    SubsetSize(PendingOf(After(s, first).slots, k), PendingOf(s.slots, k));
    RoundsSettleAll(After(s, first), rounds, k);
  }

  lemma Smaller<T>(a: set<T>, b: set<T>)
    requires a < b
    ensures |a| < |b|
  {
    assert b == a + (b - a) && b - a != {};
  }

  /** A drop without ack strands nothing.  From every reachable state of a daemon
      that is not shutting down, a run of smooth task steps and redeliveries alone
      leads to rest with every pending message acked or termed and every other
      message untouched. */
  lemma NothingStranded(s: State) returns (tr: seq<Action>)
    requires Reachable(s) && !s.draining
    ensures Legal(s, tr) && Calm(s, tr) && Quiet(After(s, tr))
    ensures After(s, tr).slots.Keys == s.slots.Keys
    ensures forall q :: q in s.slots ==>
      if s.slots[q].fate == Pending
      then After(s, tr).slots[q].fate.Settled?
           && (After(s, tr).slots[q].fate.how.Acked? || After(s, tr).slots[q].fate.how.Termed?)
      else After(s, tr).slots[q] == s.slots[q]
  {
    hide Apply, Enabled, Sound, Work, Calm, Reachable;
    ReachableSound(s);
    var first := ComesToRest(s);
    SmoothIsCalm(s, first);
    var rest := SettleAll(After(s, first));
    RunAppend(s, first, rest);
    CalmAppend(s, first, rest);
    tr := first + rest;
    ReachableRun(s, tr);
    ReachableSettledProperly(After(s, tr));
    forall q | q in s.slots && s.slots[q].fate == Pending
      ensures After(s, tr).slots[q].fate.Settled?
    {
      assert q !in AllPending(After(s, tr).slots);
    }
  }
}
