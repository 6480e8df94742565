/** The dispatcher as it is written: an object whose critical sections update a
    map of per-agent entries, and a dispatch that goes from one to the next.

    Every critical section is proved to be one action of the protocol, and
    between any two of them every other task, and the environment, may run. */
module DispatcherObject {
  import opened Common
  import opened Protocol
  import opened Steps
  import opened Counting
  import opened Invariants
  import opened NoLoss

  /** What the world answers one dispatch. */
  datatype World = World(lookupOk: bool, spawnOk: bool, markOk: bool, arrived: bool, patience: nat)

  class Dispatcher {
    const maxBytes: nat
    var registry: map<AgentId, Config>
    var states: map<AgentId, AgentState>
    var polls: map<PollId, Reading>
    var permits: map<Gen, Semaphore>
    var tasks: map<TaskId, Task>
    var completed: set<Key>
    var slots: map<nat, Slot>
    var limits: map<AgentId, nat>
    var draining: bool
    var log: seq<Obs>
    ghost var trace: seq<Action>

    ghost function Abs(): State
      reads this
    {
      State(maxBytes, registry, states, polls, permits, tasks, completed, slots, limits, draining, log)
    }

    /** The object is in a state that its history, as a protocol run, leads to. */
    ghost predicate Valid()
      reads this
    {
      Legal(Init(maxBytes), trace) && After(Init(maxBytes), trace) == Abs()
    }

    /** The steps that one task has taken. */
    ghost function Own(t: TaskId): seq<Action>
      reads this`trace
    {
      By(trace, t)
    }

    constructor (maxBytes: nat)
      ensures Valid() && this.maxBytes == maxBytes && trace == []
    {
      this.maxBytes := maxBytes;
      registry, states, polls, permits, tasks := map[], map[], map[], map[], map[];
      completed, slots, limits, draining, log, trace := {}, map[], map[], false, [], [];
    }

    ghost method Record(a: Action, before: State)
      requires Legal(Init(maxBytes), trace) && After(Init(maxBytes), trace) == before
      requires Enabled(before, a) && Abs() == Apply(before, a)
      modifies this`trace
      ensures Valid() && trace == old(trace) + [a]
      ensures forall t: TaskId :: Own(t) == old(Own(t)) + By([a], t)
    {
      hide Apply, Enabled;
      RunAppend(Init(maxBytes), trace, [a]);
      ByAll(trace, a);
      trace := trace + [a];
    }

    /** Everyone else runs.  A caller may rely on its own task, which nobody else moves,
        and on nothing more. */
    method Yield(ghost t: TaskId)
      requires Valid() && t in tasks
      modifies this
      ensures Valid() && old(trace) <= trace
      ensures t in tasks && tasks[t] == old(tasks[t])
      ensures Own(t) == old(Own(t))
    {
    }

    method YieldPoll(ghost p: PollId)
      requires Valid() && p in polls
      modifies this
      ensures Valid() && old(trace) <= trace
      ensures p in polls && polls[p] == old(polls[p])
    {
    }

    /** Dispatch tasks and pull loops run, while nobody configures an agent. */
    method Run()
      requires Valid()
      modifies this
      ensures Valid() && old(trace) <= trace && registry == old(registry)
    {
    }

    /** A number that is not in use. */
    method Fresh(used: set<nat>) returns (n: nat)
      ensures n !in used
    {
      n := 0;
      var left := used;
      while left != {}
        invariant left <= used
        invariant forall h :: h in used && h !in left ==> h < n
        decreases left
      {
        var h :| h in left;
        left := left - {h};
        if n <= h {
          n := h + 1;
        }
      }
    }

    method EnsureState(a: AgentId, conc: nat) returns (g: Gen, ghost made: Gen)
      modifies this`states, this`permits
      ensures a in old(states) || made !in old(permits)
      ensures states == EnsureEntry(old(states), a, made)
      ensures permits == if a in old(states) then old(permits) else old(permits)[made := Semaphore(a, conc, conc)]
      ensures permits == EnsureSem(old(Abs()), a, conc, made)
      ensures a in states && g == states[a].permits
    {
      var unused := Fresh(permits.Keys);
      made := unused;
      if a !in states {
        permits := permits[unused := Semaphore(a, conc, conc)];
        states := states[a := AgentState(unused, {})];
      }
      g := states[a].permits;
    }

    /** Free dispatch slots: what the pull loop may fetch.  The registry is read
        first and the entries are locked after, with everyone else in between: an
        entry made here has the concurrency that was read. */
    method Available(a: AgentId) returns (free: nat)
      requires Valid()
      modifies this
      ensures Valid() && old(trace) <= trace
      ensures old(a in registry && registry[a].enabled) ==>
        && a in states && states[a].permits in permits && free == permits[states[a].permits].free
        && exists p, g :: |trace| > |old(trace)| + 1
             && trace[|old(trace)|] == StartPoll(p, a) && trace[|trace| - 1] == Poll(p, g)
      ensures !old(a in registry && registry[a].enabled) ==> free == 0 && Abs() == old(Abs())
    {
      if a in registry && registry[a].enabled {
        hide Legal, After, Apply, Enabled, Valid;
        var p := ReadRegistry(a);
        assert trace[|old(trace)|] == StartPoll(p, a);
        YieldPoll(p);
        assert trace[|old(trace)|] == StartPoll(p, a);
        var g; ghost var made;
        g, made := FindEntry(p);
        free := permits[g].free;
      } else {
        free := 0;
      }
    }

    method ReadRegistry(a: AgentId) returns (p: PollId)
      requires Valid() && a in registry && registry[a].enabled
      modifies this`polls, this`trace
      ensures Valid() && trace == old(trace) + [StartPoll(p, a)]
      ensures p in polls && polls[p] == Reading(a, registry[a].conc)
    {
      hide Legal, After;
      ghost var before := Abs();
      p := Fresh(polls.Keys);
      polls := polls[p := Reading(a, registry[a].conc)];
      assert Abs().log == Apply(before, StartPoll(p, a)).log;
      Record(StartPoll(p, a), before);
    }

    method FindEntry(p: PollId) returns (g: Gen, ghost made: Gen)
      requires Valid() && p in polls
      modifies this
      ensures Valid() && trace == old(trace) + [Poll(p, made)]
      ensures var a := old(polls[p].agent); a in states && g == states[a].permits && g in permits
    {
      KnowPoll(p);
      hide Legal, After, Apply, Enabled, EnsureEntry, EnsureSem;
      ghost var before := Abs();
      var r := polls[p];
      g, made := EnsureState(r.agent, r.conc);
      PollAnyIs(before, p, made);
      polls := polls - {p};
      Record(Poll(p, made), before);
    }

    /** An entry's semaphore exists. */
    lemma KnowPoll(p: PollId)
      requires Valid() && p in polls
      ensures forall a :: a in states ==> states[a].permits in permits
    {
      ReachableSound(Abs()) by { assert Reachable(Abs()) by { ValidReachable(); } }
    }

    lemma ValidReachable()
      requires Valid()
      ensures Reachable(Abs())
    {
    }

    /** The registry the dispatcher shares takes on a new configuration, or loses one. */
    method SetConfig(a: AgentId, c: Option<Config>)
      requires Valid() && (c.Some? ==> c.value.conc >= 1)
      modifies this`registry, this`log, this`trace
      ensures Valid() && trace == old(trace) + [Configure(a, c)]
      ensures registry == if c.Some? then old(registry)[a := c.value] else old(registry) - {a}
    {
      hide Legal, After;
      ghost var before := Abs();
      if c.Some? {
        registry := registry[a := c.value];
        log := log + [Configured(a, c.value.conc)];
      } else {
        registry := registry - {a};
      }
      assert Abs().log == Apply(before, Configure(a, c)).log;
      Record(Configure(a, c), before);
    }

    method DropEntry(a: AgentId)
      requires Valid()
      modifies this`states, this`log, this`trace
      ensures Valid() && trace == old(trace) + [ApplyChange(a)]
      ensures states == old(states) - {a}
    {
      hide Legal, After;
      ghost var before := Abs();
      if a in states {
        log := log + [ChangeApplied(a)];
      }
      states := states - {a};
      assert Abs().log == Apply(before, ApplyChange(a)).log && Abs().states == Apply(before, ApplyChange(a)).states;
      Record(ApplyChange(a), before);
    }

    /** Drop the entries of the changed agents; semaphores and tasks stay. */
    method ApplyChanges(changed: seq<AgentId>)
      requires Valid()
      modifies this`states, this`log, this`trace
      ensures Valid() && trace == old(trace) + Drops(changed)
      ensures states == old(states) - (set a | a in changed)
    {
      var i := 0;
      assert changed[..0] == [];
      while i < |changed|
        invariant 0 <= i <= |changed|
        invariant Valid() && trace == old(trace) + Drops(changed[..i])
        invariant states == old(states) - Named(changed[..i])
      {
        hide Legal, After, Apply, Enabled, Valid, Drops;
        DropEntry(changed[i]);
        OneMore(changed, i);
        i := i + 1;
      }
      assert changed[..i] == changed;
    }

    /** The process is killed: all but the store and what the server has is gone. */
    method Die()
      requires Valid()
      modifies this
      ensures Valid() && trace == old(trace) + [Crash] && registry == old(registry)
      ensures states == map[] && permits == map[] && forall t :: t in tasks ==> tasks[t].pc == Done
    {
      hide Legal, After, Apply, Enabled, AllKilled;
      ghost var before := Abs();
      CrashIs(before);
      states, permits, polls, draining := map[], map[], map[], false;
      tasks := AllKilled(tasks);
      log := log + [Restarted];
      Record(Crash, before);
    }

    /** No agent is configured any more. */
    method Unconfigure()
      requires Valid()
      modifies this`registry, this`log, this`trace
      ensures Valid() && registry == map[] && old(trace) <= trace
    {
      var left := registry.Keys;
      while left != {}
        invariant Valid() && old(trace) <= trace && registry.Keys == left
        decreases left
      {
        hide Legal, After, Valid;
        var a :| a in left;
        left := left - {a};
        SetConfig(a, None);
      }
    }

    method AddInFlight(a: AgentId, e: EventId, held: Gen)
      modifies this`states
      ensures states == Protocol.InsertInFlight(old(states), a, e, held)
      ensures InFlight(states, Key(a, e)) && (a !in old(states) ==> states[a].permits == held)
    {
      var entry := if a in states then states[a] else AgentState(held, {});
      states := states[a := entry.(inFlight := entry.inFlight + {e})];
    }

    method RemoveInFlight(a: AgentId, e: EventId)
      modifies this`states
      ensures states == Protocol.RemoveInFlight(old(states), a, e)
      ensures !InFlight(states, Key(a, e))
    {
      if a in states {
        states := states[a := states[a].(inFlight := states[a].inFlight - {e})];
      }
    }

    /** What the server makes of an ack or a term, if it arrives. */
    method Receive(q: nat, how: Outcome, arrived: bool)
      modifies this`slots
      ensures slots == SlotsAfter(old(slots), q, how, arrived)
    {
      if arrived && q in slots && slots[q].fate == Pending {
        slots := slots[q := slots[q].(fate := Settled(how))];
      }
    }

    /** How many of an agent's events are in flight: never more than its tasks between
        insert and remove. */
    method InFlightCount(a: AgentId) returns (n: nat)
      requires Valid()
      ensures n == if a in states then |states[a].inFlight| else 0
      ensures n <= |InHand(tasks, a)|
    {
      ReachableSound(Abs()) by { assert Reachable(Abs()) by { ValidReachable(); } }
      CountedByTasks(Abs(), a);
      n := if a in states then |states[a].inFlight| else 0;
    }

    // ---- the critical sections of one dispatch -------------------------------

    lemma KnowWired(t: TaskId)
      requires Valid() && t in tasks
      ensures WiredTask(Abs(), tasks[t])
    {
      ReachableSound(Abs()) by { assert Reachable(Abs()) by { ValidReachable(); } }
      WiredAt(Abs(), t);
    }

    /** The gates, and the one read of the registry. */
    method Gate(t: TaskId) returns (v: Outcome)
      requires Valid() && At(Abs(), t, Received)
      modifies this`tasks, this`trace
      ensures Valid() && trace == old(trace) + [Check(t)]
      ensures t in tasks && tasks[t].seqNo == old(tasks[t].seqNo) && tasks[t].seqNo in slots
      ensures v == Verdict(Abs(), slots[tasks[t].seqNo].msg)
      ensures v == Undecided <==> Passes(slots[tasks[t].seqNo].msg, maxBytes, registry)
      ensures forall r :: v == Termed(r) <==> Cause(r, slots[tasks[t].seqNo].msg, maxBytes, registry)
      ensures v.Undecided? ==>
        var m := slots[tasks[t].seqNo].msg;
        At(Abs(), t, Checked) && m.dest in registry && tasks[t].conc == registry[m.dest].conc
      ensures !v.Undecided? ==>
        v.Termed? && v != Termed(Unspawnable) && At(Abs(), t, Rejecting) && tasks[t].outcome == v
      ensures Own(t) == old(Own(t)) + [Check(t)]
    {
      KnowWired(t);
      hide Legal, After, Apply, Enabled, Valid;
      var m := slots[tasks[t].seqNo].msg;
      if m.size > maxBytes {
        v := Termed(Oversize);
      } else if m.envelope.None? {
        v := Termed(Invalid);
      } else if m.envelope.value.agent != m.dest {
        v := Termed(Mismatch);
      } else if m.dest !in registry {
        v := Termed(Unregistered);
      } else if !registry[m.dest].enabled {
        v := Termed(Disabled);
      } else {
        v := Undecided;
      }
      if v.Undecided? {
        Admit(t);
      } else {
        Reject(t, v);
      }
    }

    method Admit(t: TaskId)
      requires Valid() && At(Abs(), t, Received) && tasks[t].seqNo in slots
      requires Verdict(Abs(), slots[tasks[t].seqNo].msg) == Undecided
      modifies this`tasks, this`trace
      ensures Valid() && trace == old(trace) + [Check(t)]
      ensures var m := slots[old(tasks[t].seqNo)].msg;
        m.dest in registry && tasks == old(tasks)[t := old(tasks[t]).(pc := Checked, conc := registry[m.dest].conc)]
      ensures Own(t) == old(Own(t)) + [Check(t)]
    {
      hide Legal, After, Apply, Enabled;
      ghost var before := Abs();
      CheckIs(before, t);
      tasks := tasks[t := tasks[t].(pc := Checked, conc := registry[slots[tasks[t].seqNo].msg.dest].conc)];
      Record(Check(t), before);
    }

    method Reject(t: TaskId, v: Outcome)
      requires Valid() && At(Abs(), t, Received) && tasks[t].seqNo in slots
      requires v != Undecided && Verdict(Abs(), slots[tasks[t].seqNo].msg) == v
      modifies this`tasks, this`trace
      ensures Valid() && trace == old(trace) + [Check(t)]
      ensures tasks == old(tasks)[t := old(tasks[t]).(pc := Rejecting, outcome := v)]
      ensures Own(t) == old(Own(t)) + [Check(t)]
    {
      hide Legal, After, Apply, Enabled, Verdict;
      ghost var before := Abs();
      CheckIs(before, t);
      tasks := tasks[t := tasks[t].(pc := Rejecting, outcome := v)];
      Record(Check(t), before);
    }

    /** Find or make the agent's semaphore, and queue on it. */
    method Queue(t: TaskId) returns (ghost made: Gen)
      requires Valid() && At(Abs(), t, Checked)
      modifies this
      ensures Valid() && trace == old(trace) + [Ensure(t, made)] && At(Abs(), t, Waiting)
      ensures Own(t) == old(Own(t)) + [Ensure(t, made)]
    {
      hide Legal, After, Apply, Enabled, EnsureEntry, EnsureSem;
      ghost var before := Abs();
      var k := tasks[t];
      var g;
      g, made := EnsureState(k.agent, k.conc);
      EnsureAnyIs(before, t, made);
      tasks := tasks[t := k.(pc := Waiting, gen := g)];
      Record(Ensure(t, made), before);
    }

    method TryAcquire(t: TaskId) returns (got: bool)
      requires Valid() && At(Abs(), t, Waiting)
      modifies this
      ensures Valid() && trace == old(trace) + (if got then [Acquire(t)] else [])
      ensures old(tasks[t].gen in permits) && (got <==> old(permits[tasks[t].gen].free > 0))
      ensures At(Abs(), t, if got then Permitted else Waiting)
      ensures Own(t) == old(Own(t)) + (if got then [Acquire(t)] else [])
    {
      hide Legal, After;
      ghost var before := Abs();
      KnowWired(t);
      var g := tasks[t].gen;
      got := permits[g].free > 0;
      if got {
        permits := permits[g := permits[g].(free := permits[g].free - 1)];
        tasks := tasks[t := tasks[t].(pc := Permitted)];
        assert Abs().log == Apply(before, Acquire(t)).log;
        Record(Acquire(t), before);
      }
    }

    /** The completed lookup; a failing store counts as "not completed". */
    method LookupCompleted(t: TaskId, ok: bool) returns (hit: bool)
      requires Valid() && At(Abs(), t, Permitted)
      modifies this
      ensures Valid() && trace == old(trace) + [Lookup(t, ok)]
      ensures hit <==> ok && old(tasks[t].Id() in completed)
      ensures At(Abs(), t, if hit then Resolving else Armed)
      ensures hit ==> tasks[t].outcome == Acked
      ensures Own(t) == old(Own(t)) + [Lookup(t, ok)]
    {
      hit := ok && tasks[t].Id() in completed;
      if hit {
        AlreadyCompleted(t);
      } else {
        NotCompleted(t, ok);
      }
    }

    method AlreadyCompleted(t: TaskId)
      requires Valid() && At(Abs(), t, Permitted) && tasks[t].Id() in completed
      modifies this
      ensures Valid() && trace == old(trace) + [Lookup(t, true)] && At(Abs(), t, Resolving) && tasks[t].outcome == Acked
      ensures Own(t) == old(Own(t)) + [Lookup(t, true)]
    {
      hide Legal, After, Apply, Enabled;
      ghost var before := Abs();
      LookupIs(before, t, true);
      tasks := tasks[t := tasks[t].(pc := Resolving, outcome := Acked)];
      Record(Lookup(t, true), before);
    }

    method NotCompleted(t: TaskId, ok: bool)
      requires Valid() && At(Abs(), t, Permitted) && !(ok && tasks[t].Id() in completed)
      modifies this
      ensures Valid() && trace == old(trace) + [Lookup(t, ok)] && At(Abs(), t, Armed)
      ensures Own(t) == old(Own(t)) + [Lookup(t, ok)]
    {
      hide Legal, After, Apply, Enabled;
      ghost var before := Abs();
      LookupIs(before, t, ok);
      if !ok {
        log := log + [LookupFailed(tasks[t].Id())];
      }
      tasks := tasks[t := tasks[t].(pc := Armed)];
      Record(Lookup(t, ok), before);
    }

    /** Check and insert, one critical section; it may make the entry again. */
    method CheckAndInsert(t: TaskId) returns (duplicate: bool)
      requires Valid() && At(Abs(), t, Armed)
      modifies this
      ensures Valid() && trace == old(trace) + [Insert(t)]
      ensures duplicate <==> old(InFlight(states, tasks[t].Id()))
      ensures At(Abs(), t, if duplicate then Releasing else Inserted)
      ensures duplicate ==> tasks[t].outcome == Dropped
      ensures Own(t) == old(Own(t)) + [Insert(t)]
    {
      var k := tasks[t];
      duplicate := k.agent in states && k.event in states[k.agent].inFlight;
      if duplicate {
        DropCopy(t);
      } else {
        Enter(t);
      }
    }

    method DropCopy(t: TaskId)
      requires Valid() && At(Abs(), t, Armed) && InFlight(states, tasks[t].Id())
      modifies this
      ensures Valid() && trace == old(trace) + [Insert(t)] && At(Abs(), t, Releasing) && tasks[t].outcome == Dropped
      ensures Own(t) == old(Own(t)) + [Insert(t)]
    {
      hide Legal, After, Apply, Enabled, InFlight, InsertInFlight;
      ghost var before := Abs();
      InsertIs(before, t);
      log := log + [Resolved(tasks[t].agent, t, Dropped)];
      tasks := tasks[t := tasks[t].(pc := Releasing, outcome := Dropped)];
      Record(Insert(t), before);
    }

    /** An entry dropped by a change is made again, with the semaphore the task holds
        a permit of. */
    method Enter(t: TaskId)
      requires Valid() && At(Abs(), t, Armed) && !InFlight(states, tasks[t].Id())
      modifies this
      ensures Valid() && trace == old(trace) + [Insert(t)] && At(Abs(), t, Inserted)
      ensures Own(t) == old(Own(t)) + [Insert(t)]
    {
      hide Legal, After, Apply, Enabled, InFlight, InsertInFlight;
      ghost var before := Abs();
      InsertIs(before, t);
      var k := tasks[t];
      AddInFlight(k.agent, k.event, k.gen);
      tasks := tasks[t := k.(pc := Inserted)];
      Record(Insert(t), before);
    }

    method SpawnHandler(t: TaskId, ok: bool)
      requires Valid() && At(Abs(), t, Inserted)
      modifies this
      ensures Valid() && trace == old(trace) + [Spawn(t, ok)] && At(Abs(), t, if ok then Running else SpawnFailed)
      ensures Own(t) == old(Own(t)) + [Spawn(t, ok)]
    {
      if ok {
        HandlerStarts(t);
      } else {
        HandlerFails(t);
      }
    }

    method HandlerStarts(t: TaskId)
      requires Valid() && At(Abs(), t, Inserted)
      modifies this
      ensures Valid() && trace == old(trace) + [Spawn(t, true)] && At(Abs(), t, Running)
      ensures Own(t) == old(Own(t)) + [Spawn(t, true)]
    {
      hide Legal, After, Apply, Enabled;
      ghost var before := Abs();
      SpawnIs(before, t, true);
      log := log + [HandlerStarted(tasks[t].Id(), tasks[t].seqNo, t)];
      tasks := tasks[t := tasks[t].(pc := Running)];
      Record(Spawn(t, true), before);
    }

    method HandlerFails(t: TaskId)
      requires Valid() && At(Abs(), t, Inserted)
      modifies this
      ensures Valid() && trace == old(trace) + [Spawn(t, false)] && At(Abs(), t, SpawnFailed)
      ensures Own(t) == old(Own(t)) + [Spawn(t, false)]
    {
      hide Legal, After, Apply, Enabled;
      ghost var before := Abs();
      SpawnIs(before, t, false);
      log := log + [HandlerNotSpawned(tasks[t].Id(), tasks[t].seqNo)];
      tasks := tasks[t := tasks[t].(pc := SpawnFailed)];
      Record(Spawn(t, false), before);
    }

    method WaitHandler(t: TaskId)
      requires Valid() && At(Abs(), t, Running)
      modifies this
      ensures Valid() && trace == old(trace) + [Exit(t)] && At(Abs(), t, Exited)
      ensures Own(t) == old(Own(t)) + [Exit(t)]
    {
      hide Legal, After;
      ghost var before := Abs();
      log := log + [HandlerExited(tasks[t].Id(), t)];
      tasks := tasks[t := tasks[t].(pc := Exited)];
      Record(Exit(t), before);
    }

    method MarkCompleted(t: TaskId, ok: bool)
      requires Valid() && At(Abs(), t, Exited)
      modifies this
      ensures Valid() && trace == old(trace) + [Mark(t, ok)] && At(Abs(), t, Marked)
      ensures completed == if ok then old(completed) + {tasks[t].Id()} else old(completed)
      ensures Own(t) == old(Own(t)) + [Mark(t, ok)]
    {
      hide Legal, After;
      ghost var before := Abs();
      if ok {
        completed := completed + {tasks[t].Id()};
      } else {
        log := log + [MarkFailed(tasks[t].Id())];
      }
      tasks := tasks[t := tasks[t].(pc := Marked)];
      assert Abs().log == Apply(before, Mark(t, ok)).log;
      Record(Mark(t, ok), before);
    }

    method RemoveFromFlight(t: TaskId)
      requires Valid() && (At(Abs(), t, Marked) || At(Abs(), t, SpawnFailed))
      modifies this
      ensures Valid() && trace == old(trace) + [Remove(t)] && At(Abs(), t, Resolving)
      ensures tasks[t].outcome == if old(tasks[t].pc == Marked) then Acked else Termed(Unspawnable)
      ensures !InFlight(states, tasks[t].Id())
      ensures Own(t) == old(Own(t)) + [Remove(t)]
    {
      hide Legal, After, Apply, Enabled, InFlight, Protocol.RemoveInFlight, InsertInFlight;
      ghost var before := Abs();
      RemoveIs(before, t);
      var k := tasks[t];
      RemoveInFlight(k.agent, k.event);
      tasks := tasks[t := k.(pc := Resolving, outcome := if k.pc == Marked then Acked else Termed(Unspawnable))];
      Record(Remove(t), before);
    }

    /** Ack or term, as decided; the call may or may not reach the server. */
    method CallAcker(t: TaskId, arrived: bool)
      requires Valid() && (At(Abs(), t, Rejecting) || At(Abs(), t, Resolving))
      modifies this
      ensures Valid() && trace == old(trace) + [Resolve(t, arrived)]
      ensures At(Abs(), t, if old(tasks[t].pc == Rejecting) then Done else Releasing)
      ensures tasks[t].outcome == old(tasks[t].outcome)
      ensures Own(t) == old(Own(t)) + [Resolve(t, arrived)]
    {
      hide Legal, After, Apply, Enabled, SlotsAfter;
      ghost var before := Abs();
      ResolveIs(before, t, arrived);
      var k := tasks[t];
      Receive(k.seqNo, k.outcome, arrived);
      log := log + [Resolved(k.agent, t, k.outcome)];
      tasks := tasks[t := k.(pc := if k.pc == Rejecting then Done else Releasing)];
      Record(Resolve(t, arrived), before);
    }

    method DropPermit(t: TaskId)
      requires Valid() && At(Abs(), t, Releasing)
      modifies this
      ensures Valid() && trace == old(trace) + [Release(t)] && At(Abs(), t, Done)
      ensures tasks[t].outcome == old(tasks[t].outcome)
      ensures Own(t) == old(Own(t)) + [Release(t)]
    {
      hide Legal, After;
      ghost var before := Abs();
      KnowWired(t);
      var g := tasks[t].gen;
      permits := permits[g := permits[g].(free := permits[g].free + 1)];
      tasks := tasks[t := tasks[t].(pc := Done)];
      assert Abs().log == Apply(before, Release(t)).log;
      Record(Release(t), before);
    }

    /** One dispatch, from the delivery to its end, with everyone else running in
        between.  None means the permit never came within the world's patience.
        Otherwise the delivery has been acked, termed or dropped, once, as the
        outcome says, and a message is acked only after a handler of its event ran. */
    method Dispatch(t: TaskId, world: World) returns (outcome: Option<Outcome>)
      requires Valid() && At(Abs(), t, Received)
      modifies this
      ensures Valid() && old(trace) <= trace
      ensures outcome.None? ==> At(Abs(), t, Waiting)
      ensures outcome.Some? ==>
        && At(Abs(), t, Done) && tasks[t].outcome == outcome.value
        && (outcome.value.Acked? || outcome.value.Termed? || outcome.value.Dropped?)
        && Tally(log, Resolutions(t)) == 1 && Resolved(tasks[t].agent, t, outcome.value) in log
        && (outcome.value.Acked? ==> Tally(log, Exits(tasks[t].Id())) >= 1)
        && (outcome.value == Termed(Unspawnable) ==> !world.spawnOk)
      ensures outcome.None? ==> exists g :: Own(t) == old(Own(t)) + [Check(t), Ensure(t, g)]
      ensures outcome.Some? ==>
        || (Own(t) == old(Own(t)) + [Check(t), Resolve(t, world.arrived)]
            && outcome.value.Termed? && outcome.value != Termed(Unspawnable))
        || exists g, hit, duplicate ::
             && Own(t) == old(Own(t)) + [Check(t)] + AdmittedSteps(t, world, g, hit, duplicate)
             && outcome.value == HowHeld(world, hit, duplicate)
    {
      hide Legal, After, Apply, Enabled, Valid, Verdict, Own, AdmittedSteps;
      var verdict := PassGates(t);
      assert old(trace) <= trace;
      if !verdict.Undecided? {
        Refuse(t, world.arrived);
        return Some(verdict);
      }
      outcome := DispatchAdmitted(t, world);
    }

    /** The gates, with everyone else running before and after. */
    method PassGates(t: TaskId) returns (v: Outcome)
      requires Valid() && At(Abs(), t, Received)
      modifies this
      ensures Valid() && old(trace) <= trace && Own(t) == old(Own(t)) + [Check(t)]
      ensures v.Undecided? ==> At(Abs(), t, Checked)
      ensures !v.Undecided? ==>
        v.Termed? && v != Termed(Unspawnable) && At(Abs(), t, Rejecting) && tasks[t].outcome == v
    {
      hide Legal, After, Apply, Enabled, Valid, Verdict, Own, Passes, Cause;
      Yield(t);
      assert old(trace) <= trace;
      v := Gate(t);
      assert old(trace) <= trace;
      Yield(t);
    }

    /** The rest of a dispatch, once it is past the gates. */
    method DispatchAdmitted(t: TaskId, world: World) returns (outcome: Option<Outcome>)
      requires Valid() && At(Abs(), t, Checked)
      modifies this
      ensures Valid() && old(trace) <= trace
      ensures outcome.None? ==> At(Abs(), t, Waiting)
      ensures outcome.Some? ==>
        && At(Abs(), t, Done) && tasks[t].outcome == outcome.value
        && (outcome.value.Acked? || outcome.value.Termed? || outcome.value.Dropped?)
        && Tally(log, Resolutions(t)) == 1 && Resolved(tasks[t].agent, t, outcome.value) in log
        && (outcome.value.Acked? ==> Tally(log, Exits(tasks[t].Id())) >= 1)
        && (outcome.value == Termed(Unspawnable) ==> !world.spawnOk)
      ensures outcome.None? ==> exists g :: Own(t) == old(Own(t)) + [Ensure(t, g)]
      ensures outcome.Some? ==> exists g, hit, duplicate ::
        && Own(t) == old(Own(t)) + AdmittedSteps(t, world, g, hit, duplicate)
        && outcome.value == HowHeld(world, hit, duplicate)
    {
      hide Legal, After, Apply, Enabled, Valid, Own;
      var got; ghost var g, hit, duplicate;
      got, g := AwaitPermit(t, world.patience);
      if !got {
        return None;
      }
      ghost var before := Own(t);
      outcome, hit, duplicate := DispatchHeld(t, world);
      assert Own(t) == old(Own(t)) + AdmittedSteps(t, world, g, hit, duplicate);
    }

    /** Terminate a delivery that the gates did not let pass. */
    method Refuse(t: TaskId, arrived: bool)
      requires Valid() && At(Abs(), t, Rejecting) && tasks[t].outcome.Termed?
      modifies this
      ensures Valid() && old(trace) <= trace && At(Abs(), t, Done) && tasks[t].outcome == old(tasks[t].outcome)
      ensures Tally(log, Resolutions(t)) == 1 && Resolved(tasks[t].agent, t, tasks[t].outcome) in log
      ensures Own(t) == old(Own(t)) + [Resolve(t, arrived)]
    {
      hide Legal, After, Apply, Enabled, Valid, Own;
      CallAcker(t, arrived);
      Ended(t);
    }

    /** Queue for a permit, and wait for one as long as the patience lasts. */
    method AwaitPermit(t: TaskId, patience: nat) returns (got: bool, ghost made: Gen)
      requires Valid() && At(Abs(), t, Checked)
      modifies this
      ensures Valid() && old(trace) <= trace && At(Abs(), t, if got then Permitted else Waiting)
      ensures Own(t) == old(Own(t)) + [Ensure(t, made)] + (if got then [Acquire(t)] else [])
    {
      hide Legal, After, Apply, Enabled, Valid, Own;
      made := Queue(t);
      assert old(trace) <= trace;
      Yield(t);
      assert old(trace) <= trace;
      var waited := 0;
      got := TryAcquire(t);
      while !got && waited < patience
        invariant Valid() && old(trace) <= trace && At(Abs(), t, if got then Permitted else Waiting)
        invariant Own(t) == old(Own(t)) + [Ensure(t, made)] + (if got then [Acquire(t)] else [])
        decreases patience - waited
      {
        Yield(t);
        got := TryAcquire(t);
        waited := waited + 1;
      }
    }

    /** The rest of a dispatch, once it holds a permit. */
    method DispatchHeld(t: TaskId, world: World)
      returns (outcome: Option<Outcome>, ghost hit: bool, ghost duplicate: bool)
      requires Valid() && At(Abs(), t, Permitted)
      modifies this
      ensures Valid() && old(trace) <= trace && outcome.Some?
      ensures At(Abs(), t, Done) && tasks[t].outcome == outcome.value
      ensures outcome.value.Acked? || outcome.value.Termed? || outcome.value.Dropped?
      ensures Tally(log, Resolutions(t)) == 1 && Resolved(tasks[t].agent, t, outcome.value) in log
      ensures outcome.value.Acked? ==> Tally(log, Exits(tasks[t].Id())) >= 1
      ensures outcome.value == Termed(Unspawnable) ==> !world.spawnOk
      ensures Own(t) == old(Own(t)) + HeldSteps(t, world, hit, duplicate)
      ensures outcome.value == HowHeld(world, hit, duplicate)
    {
      hide Legal, After, Apply, Enabled, Valid, InFlight, NewSteps, EndSteps, Own;
      var found := LookUp(t, world);
      hit, duplicate := found, false;
      assert old(trace) <= trace;
      if found {
        outcome := Conclude(t, world.arrived, false);
      } else {
        outcome, duplicate := DispatchNew(t, world);
      }
    }

    /** The lookup, with everyone else running before and after it. */
    method LookUp(t: TaskId, world: World) returns (hit: bool)
      requires Valid() && At(Abs(), t, Permitted)
      modifies this
      ensures Valid() && old(trace) <= trace && At(Abs(), t, if hit then Resolving else Armed)
      ensures hit ==> world.lookupOk && tasks[t].outcome == Acked
      ensures Own(t) == old(Own(t)) + [Lookup(t, world.lookupOk)]
    {
      hide Legal, After, Apply, Enabled, Valid, Own;
      Yield(t);
      assert old(trace) <= trace;
      hit := LookupCompleted(t, world.lookupOk);
      assert old(trace) <= trace;
      Yield(t);
    }

    /** The rest of a dispatch whose event is not known to be completed. */
    method DispatchNew(t: TaskId, world: World) returns (outcome: Option<Outcome>, ghost duplicate: bool)
      requires Valid() && At(Abs(), t, Armed)
      modifies this
      ensures Valid() && old(trace) <= trace && outcome.Some?
      ensures At(Abs(), t, Done) && tasks[t].outcome == outcome.value
      ensures outcome.value.Acked? || outcome.value.Termed? || outcome.value.Dropped?
      ensures Tally(log, Resolutions(t)) == 1 && Resolved(tasks[t].agent, t, outcome.value) in log
      ensures outcome.value.Acked? ==> Tally(log, Exits(tasks[t].Id())) >= 1
      ensures outcome.value == Termed(Unspawnable) ==> !world.spawnOk
      ensures Own(t) == old(Own(t)) + NewSteps(t, world, duplicate) && outcome.value == HowNew(world, duplicate)
    {
      hide Legal, After, Apply, Enabled, Valid, InFlight, RunSteps, EndSteps, Own;
      var present := InsertAndRun(t, world);
      duplicate := present;
      assert old(trace) <= trace;
      ghost var own := Own(t);
      outcome := Conclude(t, world.arrived, present);
      assert Own(t) == own + EndSteps(t, world.arrived, present);
    }

    /** Insert, and unless the event is in flight already, run its handler. */
    method InsertAndRun(t: TaskId, world: World) returns (present: bool)
      requires Valid() && At(Abs(), t, Armed)
      modifies this
      ensures Valid() && old(trace) <= trace && At(Abs(), t, if present then Releasing else Resolving)
      ensures tasks[t].outcome == HowNew(world, present)
      ensures Own(t) == old(Own(t)) + ([Insert(t)] + (if present then [] else RunSteps(t, world)))
    {
      hide Legal, After, Apply, Enabled, Valid, InFlight, RunSteps, Own;
      present := CheckAndInsert(t);
      assert old(trace) <= trace;
      Yield(t);
      assert old(trace) <= trace;
      if !present {
        RunHandler(t, world);
        assert old(trace) <= trace;
        Yield(t);
      }
    }

    /** Call the acker, unless this copy is dropped, and give the permit back. */
    method Conclude(t: TaskId, arrived: bool, duplicate: bool) returns (outcome: Option<Outcome>)
      requires Valid() && At(Abs(), t, if duplicate then Releasing else Resolving) && tasks[t].outcome != Lost
      modifies this
      ensures Valid() && old(trace) <= trace && At(Abs(), t, Done)
      ensures tasks[t].outcome == old(tasks[t].outcome) && outcome == Some(tasks[t].outcome)
      ensures Tally(log, Resolutions(t)) == 1 && Resolved(tasks[t].agent, t, tasks[t].outcome) in log
      ensures tasks[t].outcome.Acked? ==> Tally(log, Exits(tasks[t].Id())) >= 1
      ensures Own(t) == old(Own(t)) + EndSteps(t, arrived, duplicate)
    {
      hide Legal, After, Apply, Enabled, Valid, Own;
      if !duplicate {
        CallAcker(t, arrived);
        Yield(t);
      }
      DropPermit(t);
      outcome := Some(tasks[t].outcome);
      Ended(t);
    }

    /** Spawn, wait, record, and leave the in-flight set. */
    method RunHandler(t: TaskId, world: World)
      requires Valid() && At(Abs(), t, Inserted)
      modifies this
      ensures Valid() && old(trace) <= trace && At(Abs(), t, Resolving)
      ensures tasks[t].outcome == if world.spawnOk then Acked else Termed(Unspawnable)
      ensures Own(t) == old(Own(t)) + RunSteps(t, world)
    {
      hide Legal, After, Apply, Enabled, Valid, InFlight, Own;
      SpawnHandler(t, world.spawnOk);
      assert old(trace) <= trace;
      Yield(t);
      assert old(trace) <= trace;
      if world.spawnOk {
        AwaitExit(t, world.markOk);
      }
      assert old(trace) <= trace;
      RemoveFromFlight(t);
    }

    /** Wait for the handler, and record that it has exited. */
    method AwaitExit(t: TaskId, markOk: bool)
      requires Valid() && At(Abs(), t, Running)
      modifies this
      ensures Valid() && old(trace) <= trace && At(Abs(), t, Marked)
      ensures Own(t) == old(Own(t)) + [Exit(t), Mark(t, markOk)]
    {
      hide Legal, After, Apply, Enabled, Valid, Own;
      WaitHandler(t);
      Yield(t);
      assert old(trace) <= trace;
      MarkCompleted(t, markOk);
      Yield(t);
    }

    lemma Ended(t: TaskId)
      requires Valid() && At(Abs(), t, Done) && tasks[t].outcome != Lost
      ensures Tally(log, Resolutions(t)) == 1 && Resolved(tasks[t].agent, t, tasks[t].outcome) in log
      ensures tasks[t].outcome.Acked? ==> Tally(log, Exits(tasks[t].Id())) >= 1
    {
      ValidReachable();
      EndsExactlyOnce(Abs(), t);
      if tasks[t].outcome.Acked? {
        HonestReachable(Abs(), t);
      }
    }
  }

  /** The steps of one task. */
  function By(tr: seq<Action>, t: TaskId): seq<Action> {
    if tr == [] then []
    else
      var last := tr[|tr| - 1];
      By(tr[..|tr| - 1], t) + (if last.IsTaskStep() && last.task == t then [last] else [])
  }

  lemma ByAll(tr: seq<Action>, a: Action)
    ensures forall t: TaskId :: By(tr + [a], t) == By(tr, t) + By([a], t)
  {
    assert (tr + [a])[..|tr|] == tr;
    assert [a][..0] == [];
  }

  // The steps of a dispatch, as the source orders them, with what the world answers.

  function RunSteps(t: TaskId, w: World): seq<Action> {
    if w.spawnOk then [Spawn(t, true), Exit(t), Mark(t, w.markOk), Remove(t)] else [Spawn(t, false), Remove(t)]
  }

  function EndSteps(t: TaskId, arrived: bool, duplicate: bool): seq<Action> {
    if duplicate then [Release(t)] else [Resolve(t, arrived), Release(t)]
  }

  function NewSteps(t: TaskId, w: World, duplicate: bool): seq<Action> {
    [Insert(t)] + (if duplicate then [] else RunSteps(t, w)) + EndSteps(t, w.arrived, duplicate)
  }

  /** Past the permit: one lookup, with the store's own answer, and after a hit nothing
      but the ack. */
  function HeldSteps(t: TaskId, w: World, hit: bool, duplicate: bool): seq<Action> {
    [Lookup(t, w.lookupOk)] + (if hit then EndSteps(t, w.arrived, false) else NewSteps(t, w, duplicate))
  }

  function AdmittedSteps(t: TaskId, w: World, g: Gen, hit: bool, duplicate: bool): seq<Action> {
    [Ensure(t, g), Acquire(t)] + HeldSteps(t, w, hit, duplicate)
  }

  /** The four ways through a dispatch that gets its permit, step by step, each step
      with the world's own answer: one lookup, after a hit nothing but the ack, and one
      record exactly when the handler ran. */
  lemma StepsAnswer(t: TaskId, w: World, g: Gen, hit: bool, duplicate: bool)
    ensures AdmittedSteps(t, w, g, hit, duplicate) == [Ensure(t, g), Acquire(t), Lookup(t, w.lookupOk)] + (
      if hit then [Resolve(t, w.arrived), Release(t)]
      else if duplicate then [Insert(t), Release(t)]
      else if w.spawnOk then
        [Insert(t), Spawn(t, true), Exit(t), Mark(t, w.markOk), Remove(t), Resolve(t, w.arrived), Release(t)]
      else [Insert(t), Spawn(t, false), Remove(t), Resolve(t, w.arrived), Release(t)])
    ensures HowHeld(w, hit, duplicate) ==
      if hit then Acked else if duplicate then Dropped else if w.spawnOk then Acked else Termed(Unspawnable)
  {
  }

  function HowNew(w: World, duplicate: bool): Outcome {
    if duplicate then Dropped else if w.spawnOk then Acked else Termed(Unspawnable)
  }

  function HowHeld(w: World, hit: bool, duplicate: bool): Outcome {
    if hit then Acked else HowNew(w, duplicate)
  }

  function Named(changed: seq<AgentId>): set<AgentId> { set a | a in changed }

  function Drops(changed: seq<AgentId>): seq<Action> {
    if changed == [] then [] else Drops(changed[..|changed| - 1]) + [ApplyChange(changed[|changed| - 1])]
  }

  lemma OneMore(changed: seq<AgentId>, i: nat)
    requires i < |changed|
    ensures Named(changed[..i + 1]) == Named(changed[..i]) + {changed[i]}
    ensures Drops(changed[..i + 1]) == Drops(changed[..i]) + [ApplyChange(changed[i])]
  {
    assert changed[..i + 1] == changed[..i] + [changed[i]];
    assert changed[..i + 1][..i] == changed[..i];
  }

  lemma {:induction false} DropsEach(changed: seq<AgentId>, a: AgentId)
    requires a in changed
    ensures ApplyChange(a) in Drops(changed)
  {
    if changed[|changed| - 1] != a {
      DropsEach(changed[..|changed| - 1], a);
    }
  }

  /** An agent's tasks between their in-flight insert and remove. */
  function InHand(tasks: map<TaskId, Task>, a: AgentId): set<TaskId> {
    set t | t in tasks && tasks[t].agent == a && tasks[t].InWindow()
  }

  lemma CountedByTasks(s: State, a: AgentId)
    requires NoPhantoms(s)
    ensures a in s.states ==> |s.states[a].inFlight| <= |InHand(s.tasks, a)|
  {
    if a in s.states {
      forall e | e in s.states[a].inFlight
        ensures exists t :: t in InHand(s.tasks, a) && s.tasks[t].event == e
      {
        assert InFlight(s.states, Key(a, e));
        var t :| t in Sel(s.tasks, Window(Key(a, e)));
        assert t in InHand(s.tasks, a);
      }
      OneTaskEach(s.tasks, s.states[a].inFlight, InHand(s.tasks, a));
    }
  }

  lemma {:induction false} OneTaskEach(tasks: map<TaskId, Task>, events: set<EventId>, ts: set<TaskId>)
    requires forall t :: t in ts ==> t in tasks
    requires forall e :: e in events ==> exists t :: t in ts && tasks[t].event == e
    ensures |events| <= |ts|
    decreases events
  {
    if e :| e in events {
      var t :| t in ts && tasks[t].event == e;
      OneTaskEach(tasks, events - {e}, ts - {t});
    }
  }

  lemma HonestReachable(s: State, t: TaskId)
    requires Reachable(s) && t in s.tasks && s.tasks[t].outcome == Acked
    ensures Tally(s.log, Exits(s.tasks[t].Id())) >= 1
  {
    var tr :| Legal(Init(s.maxBytes), tr) && After(Init(s.maxBytes), tr) == s;
    WiredInit(s.maxBytes);
    HonestRun(Init(s.maxBytes), tr);
    assert HonestTask(s, s.tasks[t]);
  }
}
