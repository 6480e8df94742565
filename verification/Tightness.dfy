/** The bound on handler runs is met, for every concurrency, every number of changes
    and every number of purges, with no other fault. */
module Tightness {
  import opened Common
  import opened Protocol
  import opened Steps
  import opened Counting
  import opened Invariants
  import opened EffectivelyOnce
  import opened Moves
  import opened Witnesses

  /** What the history counts: the concurrency, the runs, the changes and the purges,
      and no fault of another kind. */
  predicate Counts(log: seq<Obs>, n: nat, starts: nat, changes: nat, purges: nat) {
    && Peak(log, A) == n && Tally(log, Starts(EVENT)) == starts
    && Tally(log, Changes(A)) == changes && Tally(log, Purges(EVENT)) == purges
    && Tally(log, FailedLookups(EVENT)) == Tally(log, FailedMarks(EVENT)) == Tally(log, Restarts) == 0
  }

  lemma Counted(log: seq<Obs>, o: Obs, n: nat, starts: nat, changes: nat, purges: nat)
    requires Counts(log, n, starts, changes, purges)
    requires o.HandlerStarted? || o.HandlerExited? || o.ChangeApplied? || o.RecordPurged? || o.Resolved?
    ensures Counts(log + [o], n, starts + Bit(o.HandlerStarted? && o.key == EVENT), changes + Bit(o == ChangeApplied(A)),
                   purges + Bit(o == RecordPurged(EVENT)))
  {
    hide Tally, Peak, RecentChanges;
    Told(log, o, Starts(EVENT), A);
    Told(log, o, Changes(A), A);
    Told(log, o, Purges(EVENT), A);
    Told(log, o, FailedLookups(EVENT), A);
    Told(log, o, FailedMarks(EVENT), A);
    Told(log, o, Restarts, A);
  }

  lemma CountedFirst(n: nat)
    ensures Counts([Configured(A, n)], n, 0, 0, 0)
  {
    assert [] + [Configured(A, n)] == [Configured(A, n)];
    assert Peak([], A) == 0 && forall c :: Tally([], c) == 0;
    forall c: Counter
      ensures Tally([Configured(A, n)], c) == Bit(Says(Configured(A, n), c))
    {
      Told([], Configured(A, n), c, A);
    }
    Told([], Configured(A, n), Restarts, A);
    hide Tally, Peak;
  }

  lemma {:induction false} AllRecent(log: seq<Obs>, a: AgentId)
    requires Tally(log, Restarts) == 0
    ensures RecentChanges(log, a) == Tally(log, Changes(a))
  {
    if log != [] {
      AllRecent(log[..|log| - 1], a);
    }
  }

  // ---- a stock of copies that wait -----------------------------------------

  /** The agent is enabled with n permits to an entry, which shows nothing, and its one
      message is out. */
  ghost predicate Setting(s: State, n: nat) {
    && n >= 1 && Reachable(s) && s.registry == map[A := Config(n, true)] && !s.draining && s.maxBytes == 1
    && s.polls == map[] && s.slots == map[0 := Slot(MSG, Pending)]
    && A in s.states && s.states[A].inFlight == {} && s.states[A].permits in s.sems
    && s.sems[s.states[A].permits].capacity == n
  }

  predicate NobodyHolds(s: State) { forall t :: t in s.tasks ==> !s.tasks[t].Holds() }

  /** A copy that waits on a semaphore. */
  predicate Waits(k: Task, g: Gen) {
    k.pc == Waiting && k.Id() == EVENT && k.seqNo == 0 && k.outcome == Undecided && k.gen == g
  }

  function OnGen(tasks: map<TaskId, Task>, ts: set<TaskId>, g: Gen): set<TaskId> {
    set t | t in ts && t in tasks && tasks[t].gen == g
  }

  predicate AllWait(tasks: map<TaskId, Task>, ts: set<TaskId>, gens: set<Gen>) {
    forall t :: t in ts ==> t in tasks && tasks[t].gen in gens && Waits(tasks[t], tasks[t].gen)
  }

  /** On each of these semaphores, of n permits all free, w copies wait. */
  ghost predicate Stocked(s: State, n: nat, ts: set<TaskId>, gens: set<Gen>, w: nat) {
    && Setting(s, n) && NobodyHolds(s) && AllWait(s.tasks, ts, gens)
    && forall g :: g in gens ==> g in s.sems && s.sems[g].capacity == n && |OnGen(s.tasks, ts, g)| == w
  }

  lemma AllFree(s: State, g: Gen)
    requires Reachable(s) && NobodyHolds(s) && g in s.sems
    ensures s.sems[g].free == s.sems[g].capacity
  {
    ReachableSound(s);
    NumNone(s.tasks, HoldersOf(g));
    assert s.sems[g].free + Num(s.tasks, HoldersOf(g)) == s.sems[g].capacity;
  }

  lemma AddCopy(s: State, n: nat) returns (s': State, t: TaskId)
    requires Setting(s, n) && NobodyHolds(s) && EVENT !in s.completed
    ensures Setting(s', n) && NobodyHolds(s') && t !in s.tasks && t in s'.tasks
    ensures s' == s.(tasks := s.tasks[t := s'.tasks[t]]) && Waits(s'.tasks[t], s.states[A].permits)
  {
    AllFree(s, s.states[A].permits);
    hide Reachable, Apply, Enabled, CanArm;
    t := FreshNumber(s.tasks.Keys);
    var s1 := Redeliver(s, t, 0);
    CopyCanArm(s, n, t);
    s' := Enqueue(s1, t);
    assert s'.tasks == s.tasks[t := s'.tasks[t]];
  }

  lemma CopyCanArm(s: State, n: nat, t: TaskId)
    requires Setting(s, n) && EVENT !in s.completed && s.sems[s.states[A].permits].free > 0
    ensures CanArm(Redelivered(s, t, 0), t)
  {
    hide Reachable;
  }

  /** These tasks are new, and wait; the others are as they were. */
  predicate Joined(before: map<TaskId, Task>, after: map<TaskId, Task>, ts: set<TaskId>, g: Gen) {
    && (forall t :: t in before ==> t in after && after[t] == before[t])
    && (forall t :: t in ts ==> t !in before && t in after && Waits(after[t], g))
  }

  lemma OneJoins(before: map<TaskId, Task>, middle: map<TaskId, Task>, ts: set<TaskId>, g: Gen, t: TaskId, k: Task)
    requires Joined(before, middle, ts, g) && t !in middle && Waits(k, g)
    ensures Joined(before, middle[t := k], ts + {t}, g) && |ts + {t}| == |ts| + 1
  {
    hide Waits;
    assert t !in ts;
  }

  lemma {:induction false} AddCopies(s: State, n: nat, w: nat) returns (s': State, ts: set<TaskId>)
    requires Setting(s, n) && NobodyHolds(s) && EVENT !in s.completed
    ensures Setting(s', n) && NobodyHolds(s') && s' == s.(tasks := s'.tasks)
    ensures A in s.states && |ts| == w && Joined(s.tasks, s'.tasks, ts, s.states[A].permits)
    decreases w
  {
    assert A in s.states;
    hide Setting, NobodyHolds, Joined, Waits;
    if w == 0 {
      s', ts := s, {};
      NoneJoin(s.tasks, s.states[A].permits);
    } else {
      var s1, ts1 := AddCopies(s, n, w - 1);
      var t;
      s', t := AddCopy(s1, n);
      ts := ts1 + {t};
      OneJoins(s.tasks, s1.tasks, ts1, s.states[A].permits, t, s'.tasks[t]);
    }
  }

  lemma NoneJoin(tasks: map<TaskId, Task>, g: Gen)
    ensures Joined(tasks, tasks, {}, g)
  {
  }

  /** A change drops the entry, and a new one is made. */
  lemma NextEntry(s: State, n: nat, changes: nat) returns (s': State, g: Gen)
    requires Setting(s, n) && NobodyHolds(s) && Counts(s.log, n, 0, changes, 0)
    ensures Setting(s', n) && NobodyHolds(s') && Counts(s'.log, n, 0, changes + 1, 0)
    ensures g !in s.sems && s'.sems == s.sems[g := Semaphore(A, n, n)] && A in s'.states && s'.states[A].permits == g
    ensures s'.tasks == s.tasks && s'.completed == s.completed
  {
    hide Reachable, Apply, Enabled, Counts, NobodyHolds;
    g := FreshNumber(s.sems.Keys);
    ApplyChangeIs(s, A);
    var s1 := Go(s, ApplyChange(A));
    Counted(s.log, ChangeApplied(A), n, 0, changes, 0);
    s' := GoPoll(s1, A, g);
    SameHolders(s, s');
  }

  lemma SameHolders(s: State, s': State)
    requires NobodyHolds(s) && s'.tasks == s.tasks
    ensures NobodyHolds(s')
  {
  }

  lemma FirstStock(n: nat, w: nat) returns (s: State, ts: set<TaskId>, gens: set<Gen>)
    requires n >= 1
    ensures Stocked(s, n, ts, gens, w) && |gens| == 1 && EVENT !in s.completed
    ensures Counts(s.log, n, 0, 0, 0)
  {
    hide Reachable, Counts;
    StartedReachable(n);
    CountedFirst(n);
    s, ts := AddCopies(Started(n), n, w);
    gens := {0};
    assert OnGen(s.tasks, ts, 0) == ts;
  }

  /** The stock for one more entry, after a change. */
  lemma MoreStock(s0: State, n: nat, ts0: set<TaskId>, gens0: set<Gen>, w: nat, changes: nat)
    returns (s: State, ts: set<TaskId>, gens: set<Gen>)
    requires Stocked(s0, n, ts0, gens0, w) && EVENT !in s0.completed && Counts(s0.log, n, 0, changes, 0)
    ensures Stocked(s, n, ts, gens, w) && |gens| == |gens0| + 1 && EVENT !in s.completed
    ensures Counts(s.log, n, 0, changes + 1, 0)
  {
    hide Reachable, Counts, Setting, NobodyHolds, Joined, AllWait, OnGen;
    var s1, g := NextEntry(s0, n, changes);
    var ts1;
    s, ts1 := AddCopies(s1, n, w);
    ts, gens := ts0 + ts1, gens0 + {g};
    StockGrows(s0.tasks, s.tasks, ts0, ts1, gens0, g);
    forall h | h in gens
      ensures h in s.sems && s.sems[h].capacity == n && |OnGen(s.tasks, ts, h)| == w
    {
      assert h != g ==> h in s0.sems;
    }
  }

  lemma StockGrows(before: map<TaskId, Task>, after: map<TaskId, Task>, ts: set<TaskId>, more: set<TaskId>, gens: set<Gen>, g: Gen)
    requires AllWait(before, ts, gens) && g !in gens && Joined(before, after, more, g)
    ensures AllWait(after, ts + more, gens + {g})
    ensures OnGen(after, ts + more, g) == more
    ensures forall h :: h in gens ==> OnGen(after, ts + more, h) == OnGen(before, ts, h)
  {
  }

  lemma {:induction false} Stock(n: nat, changes: nat, w: nat) returns (s: State, ts: set<TaskId>, gens: set<Gen>)
    requires n >= 1
    ensures Stocked(s, n, ts, gens, w) && |gens| == changes + 1 && EVENT !in s.completed
    ensures Counts(s.log, n, 0, changes, 0)
    decreases changes
  {
    hide Stocked, Counts;
    if changes == 0 {
      s, ts, gens := FirstStock(n, w);
    } else {
      s, ts, gens := Stock(n, changes - 1, w);
      s, ts, gens := MoreStock(s, n, ts, gens, w, changes - 1);
    }
  }

  // ---- one round -----------------------------------------------------------

  lemma {:induction false} SomeOf(ts: set<TaskId>, n: nat) returns (some: set<TaskId>)
    requires n <= |ts|
    ensures some <= ts && |some| == n
    decreases n
  {
    if n == 0 {
      some := {};
    } else {
      var less := SomeOf(ts, n - 1);
      assert ts - less != {} by { SubsetSize(ts, less + (ts - less)); }
      var t :| t in ts - less;
      some := less + {t};
    }
  }

  /** n of the copies on each semaphore. */
  lemma {:induction false} Chosen(tasks: map<TaskId, Task>, ts: set<TaskId>, gens: set<Gen>, n: nat) returns (b: set<TaskId>)
    requires forall g :: g in gens ==> |OnGen(tasks, ts, g)| >= n
    ensures b <= ts && |b| == n * |gens|
    ensures forall t :: t in b ==> t in tasks && tasks[t].gen in gens
    ensures forall g :: g in gens ==> |OnGen(tasks, b, g)| == n
    decreases gens
  {
    if gens == {} {
      b := {};
    } else {
      var g :| g in gens;
      var rest := Chosen(tasks, ts, gens - {g}, n);
      var some := SomeOf(OnGen(tasks, ts, g), n);
      b := rest + some;
      assert OnGen(tasks, b, g) == some;
      forall h | h in gens - {g}
        ensures OnGen(tasks, b, h) == OnGen(tasks, rest, h)
      {
      }
      assert |b| == |rest| + |some|;
      assert |gens| == |gens - {g}| + 1;
      Scale(n, |gens - {g}|, |gens|);
    }
  }

  /** Of the tasks, exactly these changed, and only so. */
  ghost predicate Turned(before: map<TaskId, Task>, after: map<TaskId, Task>, ts: set<TaskId>, pc: Pc, outcome: Outcome) {
    && (forall t :: t in ts ==> t in before) && (forall t :: t in before <==> t in after)
    && forall t :: t in before ==> after[t] == if t in ts then before[t].(pc := pc, outcome := outcome) else before[t]
  }

  lemma OneTurns(before: map<TaskId, Task>, middle: map<TaskId, Task>, after: map<TaskId, Task>, ts: set<TaskId>, t: TaskId,
      pc: Pc, outcome: Outcome)
    requires t in ts && t in before && middle == before[t := before[t].(pc := pc, outcome := outcome)]
    requires Turned(middle, after, ts - {t}, pc, outcome)
    ensures Turned(before, after, ts, pc, outcome)
  {
    forall u | u in ts
      ensures u in before
    {
      assert u == t || u in ts - {t};
    }
  }

  lemma NoneTurns(tasks: map<TaskId, Task>, pc: Pc, outcome: Outcome)
    ensures Turned(tasks, tasks, {}, pc, outcome)
  {
  }

  /** Permits enough for these tasks. */
  ghost predicate Room(s: State, ts: set<TaskId>) {
    forall t :: t in ts ==> t in s.tasks && s.tasks[t].gen in s.sems
                            && |OnGen(s.tasks, ts, s.tasks[t].gen)| <= s.sems[s.tasks[t].gen].free
  }

  predicate SameSems(before: map<Gen, Semaphore>, after: map<Gen, Semaphore>) {
    after.Keys == before.Keys && forall g :: g in before ==> after[g].capacity == before[g].capacity
  }

  lemma ArmOne(s: State, t: TaskId) returns (s': State)
    requires Reachable(s) && t in s.tasks && Waits(s.tasks[t], s.tasks[t].gen) && EVENT !in s.completed
    requires s.tasks[t].gen in s.sems && s.sems[s.tasks[t].gen].free > 0
    ensures Reachable(s')
    ensures var k := s.tasks[t];
      s' == s.(sems := s.sems[k.gen := s.sems[k.gen].(free := s.sems[k.gen].free - 1)],
               tasks := s.tasks[t := k.(pc := Armed, outcome := Undecided)])
  {
    hide Reachable, Apply, Enabled;
    AcquireIs(s, t);
    var s1 := Go(s, Acquire(t));
    LookupIs(s1, t, true);
    s' := Go(s1, Lookup(t, true));
    assert s'.tasks == s.tasks[t := s.tasks[t].(pc := Armed, outcome := Undecided)];
  }

  lemma RoomLeft(s: State, s': State, ts: set<TaskId>, t: TaskId, k: Task)
    requires Room(s, ts) && t in ts && k.gen == s.tasks[t].gen && s'.tasks == s.tasks[t := k] && s.sems[k.gen].free > 0
    requires s'.sems == s.sems[k.gen := s.sems[k.gen].(free := s.sems[k.gen].free - 1)]
    ensures Room(s', ts - {t})
  {
    forall u | u in ts - {t}
      ensures |OnGen(s'.tasks, ts - {t}, s.tasks[u].gen)| <= s'.sems[s.tasks[u].gen].free
    {
      var g := s.tasks[u].gen;
      assert OnGen(s'.tasks, ts - {t}, g) == OnGen(s.tasks, ts, g) - {t};
    }
  }

  lemma FirstFits(s: State, ts: set<TaskId>, t: TaskId)
    requires Room(s, ts) && t in ts
    ensures t in s.tasks && s.tasks[t].gen in s.sems && s.sems[s.tasks[t].gen].free > 0
  {
    assert t in OnGen(s.tasks, ts, s.tasks[t].gen);
  }

  /** They take their permits and look the event up. */
  lemma {:induction false} ArmAll(s: State, ts: set<TaskId>) returns (s': State)
    requires Reachable(s) && EVENT !in s.completed && Room(s, ts)
    requires forall t :: t in ts ==> t in s.tasks && Waits(s.tasks[t], s.tasks[t].gen)
    ensures Reachable(s') && s' == s.(sems := s'.sems, tasks := s'.tasks) && SameSems(s.sems, s'.sems)
    ensures Turned(s.tasks, s'.tasks, ts, Armed, Undecided)
    decreases ts
  {
    hide Reachable, Room, Turned, Waits;
    if t :| t in ts {
      FirstFits(s, ts, t);
      var s1 := ArmOne(s, t);
      RoomLeft(s, s1, ts, t, s1.tasks[t]);
      s' := ArmAll(s1, ts - {t});
      OneTurns(s.tasks, s1.tasks, s'.tasks, ts, t, Armed, Undecided);
    } else {
      assert ts == {};
      s' := s;
      NoneTurns(s.tasks, Armed, Undecided);
    }
  }

  /** The entry shows nothing. */
  predicate Empty(s: State) { A in s.states && s.states[A].inFlight == {} }

  lemma RunOne(s: State, t: TaskId, n: nat, starts: nat, changes: nat, purges: nat) returns (s': State)
    requires Reachable(s) && Empty(s) && At(s, t, Armed) && s.tasks[t].Id() == EVENT
    requires Counts(s.log, n, starts, changes, purges)
    ensures Reachable(s') && Counts(s'.log, n, starts + 1, changes, purges)
    ensures s' == s.(log := s'.log, completed := s.completed + {EVENT},
                     tasks := s.tasks[t := s.tasks[t].(pc := Resolving, outcome := Acked)])
  {
    hide Reachable, Apply, Enabled, Counts;
    var s1 := Launch(s, t);
    Counted(s.log, HandlerStarted(EVENT, s.tasks[t].seqNo, t), n, starts, changes, purges);
    s' := Finish(s1, t);
    Counted(s1.log, HandlerExited(EVENT, t), n, starts + 1, changes, purges);
    assert s'.states == s.states && s'.tasks == s.tasks[t := s.tasks[t].(pc := Resolving, outcome := Acked)];
  }

  /** They run, one after the other. */
  lemma {:induction false} RunAll(s: State, ts: set<TaskId>, n: nat, starts: nat, changes: nat, purges: nat) returns (s': State)
    requires Reachable(s) && Empty(s) && Counts(s.log, n, starts, changes, purges)
    requires forall t :: t in ts ==> At(s, t, Armed) && s.tasks[t].Id() == EVENT
    ensures Reachable(s') && s' == s.(log := s'.log, completed := s'.completed, tasks := s'.tasks)
    ensures Turned(s.tasks, s'.tasks, ts, Resolving, Acked) && Counts(s'.log, n, starts + |ts|, changes, purges)
    ensures s'.completed == if ts == {} then s.completed else s.completed + {EVENT}
    decreases ts
  {
    hide Reachable, Counts, Turned;
    if t :| t in ts {
      var s1 := RunOne(s, t, n, starts, changes, purges);
      s' := RunAll(s1, ts - {t}, n, starts + 1, changes, purges);
      OneTurns(s.tasks, s1.tasks, s'.tasks, ts, t, Resolving, Acked);
      assert |ts| == |ts - {t}| + 1;
    } else {
      assert ts == {};
      s' := s;
      NoneTurns(s.tasks, Resolving, Acked);
    }
  }

  lemma EndOne(s: State, t: TaskId, n: nat, starts: nat, changes: nat, purges: nat) returns (s': State)
    requires Reachable(s) && At(s, t, Resolving) && s.tasks[t].gen in s.sems && s.tasks[t].outcome == Acked
    requires Counts(s.log, n, starts, changes, purges)
    ensures Reachable(s') && Counts(s'.log, n, starts, changes, purges) && SameSems(s.sems, s'.sems)
    ensures s' == s.(log := s'.log, sems := s'.sems, tasks := s.tasks[t := s.tasks[t].(pc := Done, outcome := Acked)])
  {
    hide Reachable, Apply, Enabled, Counts;
    ResolveIs(s, t, false);
    var s1 := Go(s, Resolve(t, false));
    Counted(s.log, Resolved(s.tasks[t].agent, t, Acked), n, starts, changes, purges);
    ReleaseIs(s1, t);
    s' := Go(s1, Release(t));
    assert s'.tasks == s.tasks[t := s.tasks[t].(pc := Done, outcome := Acked)];
  }

  /** They give their permits back; their acks are lost. */
  lemma {:induction false} EndAll(s: State, ts: set<TaskId>, n: nat, starts: nat, changes: nat, purges: nat) returns (s': State)
    requires Reachable(s) && Counts(s.log, n, starts, changes, purges)
    requires forall t :: t in ts ==> At(s, t, Resolving) && s.tasks[t].gen in s.sems && s.tasks[t].outcome == Acked
    ensures Reachable(s') && s' == s.(log := s'.log, sems := s'.sems, tasks := s'.tasks) && SameSems(s.sems, s'.sems)
    ensures Turned(s.tasks, s'.tasks, ts, Done, Acked) && Counts(s'.log, n, starts, changes, purges)
    decreases ts
  {
    hide Reachable, Counts, Turned;
    if t :| t in ts {
      var s1 := EndOne(s, t, n, starts, changes, purges);
      s' := EndAll(s1, ts - {t}, n, starts, changes, purges);
      OneTurns(s.tasks, s1.tasks, s'.tasks, ts, t, Done, Acked);
    } else {
      assert ts == {};
      s' := s;
      NoneTurns(s.tasks, Done, Acked);
    }
  }

  // ---- all rounds ----------------------------------------------------------

  /** What arming, running and ending leaves of the tasks. */
  lemma Ended(t0: map<TaskId, Task>, t1: map<TaskId, Task>, t2: map<TaskId, Task>, t3: map<TaskId, Task>, b: set<TaskId>)
    requires Turned(t0, t1, b, Armed, Undecided) && Turned(t1, t2, b, Resolving, Acked) && Turned(t2, t3, b, Done, Acked)
    ensures Turned(t0, t3, b, Done, Acked)
  {
  }

  /** The rest of the stock is as it was. */
  lemma StockLeft(before: map<TaskId, Task>, after: map<TaskId, Task>, ts: set<TaskId>, b: set<TaskId>, gens: set<Gen>, n: nat, w: nat)
    requires AllWait(before, ts, gens) && Turned(before, after, b, Done, Acked) && b <= ts && n <= w
    requires forall g :: g in gens ==> |OnGen(before, ts, g)| == w && |OnGen(before, b, g)| == n
    ensures AllWait(after, ts - b, gens)
    ensures forall g :: g in gens ==> |OnGen(after, ts - b, g)| == w - n
  {
    forall g | g in gens
      ensures |OnGen(after, ts - b, g)| == w - n
    {
      assert OnGen(after, ts - b, g) == OnGen(before, ts, g) - OnGen(before, b, g);
      assert OnGen(before, b, g) <= OnGen(before, ts, g);
    }
  }

  lemma EnoughRoom(s: State, n: nat, ts: set<TaskId>, gens: set<Gen>, w: nat, b: set<TaskId>)
    requires Stocked(s, n, ts, gens, w) && b <= ts
    requires forall g :: g in gens ==> |OnGen(s.tasks, b, g)| == n
    ensures Room(s, b)
    ensures forall t :: t in b ==> t in s.tasks && Waits(s.tasks[t], s.tasks[t].gen) && s.tasks[t].Id() == EVENT
  {
    hide Reachable;
    forall t | t in b
      ensures t in s.tasks && s.tasks[t].gen in s.sems && Waits(s.tasks[t], s.tasks[t].gen) && s.tasks[t].Id() == EVENT
      ensures |OnGen(s.tasks, b, s.tasks[t].gen)| <= s.sems[s.tasks[t].gen].free
    {
      AllFree(s, s.tasks[t].gen);
    }
  }

  /** Only these hold permits in between, and they end. */
  lemma NobodyAgain(before: State, after: State, b: set<TaskId>)
    requires NobodyHolds(before) && Turned(before.tasks, after.tasks, b, Done, Acked)
    ensures NobodyHolds(after)
  {
  }

  lemma StillSet(s: State, s': State, n: nat)
    requires Setting(s, n) && Reachable(s') && SameSems(s.sems, s'.sems)
    requires s' == s.(log := s'.log, sems := s'.sems, tasks := s'.tasks, completed := s'.completed)
    ensures Setting(s', n)
  {
    hide Reachable;
  }

  /** n copies on every semaphore run, and end. */
  lemma Round(s: State, n: nat, ts: set<TaskId>, gens: set<Gen>, w: nat, starts: nat, changes: nat, purges: nat)
    returns (s': State, left: set<TaskId>)
    requires Stocked(s, n, ts, gens, w) && w >= n && EVENT !in s.completed && Counts(s.log, n, starts, changes, purges)
    requires gens != {}
    ensures Stocked(s', n, left, gens, w - n) && Counts(s'.log, n, starts + n * |gens|, changes, purges)
    ensures EVENT in s'.completed
  {
    hide Reachable, Counts, Turned, Room, AllWait, OnGen, Waits, NobodyHolds, Setting;
    var b := Chosen(s.tasks, ts, gens, n);
    EnoughRoom(s, n, ts, gens, w, b);
    assert b != {} by { NotNone(s, n, b, gens); }
    assert Reachable(s) && Empty(s) by { SettingParts(s, n); }
    var s1 := ArmAll(s, b);
    TurnedAt(s.tasks, s1.tasks, b, Armed, Undecided);
    assert Empty(s1);
    var s2 := RunAll(s1, b, n, starts, changes, purges);
    TurnedAt(s1.tasks, s2.tasks, b, Resolving, Acked);
    s' := EndAll(s2, b, n, starts + |b|, changes, purges);
    left := ts - b;
    Ended(s.tasks, s1.tasks, s2.tasks, s'.tasks, b);
    StockLeft(s.tasks, s'.tasks, ts, b, gens, n, w);
    NobodyAgain(s, s', b);
    StillSet(s, s', n);
  }

  lemma NotNone(s: State, n: nat, b: set<TaskId>, gens: set<Gen>)
    requires Setting(s, n) && gens != {} && forall g :: g in gens ==> |OnGen(s.tasks, b, g)| == n
    ensures b != {}
  {
    var g :| g in gens;
    assert OnGen(s.tasks, b, g) != {};
  }

  lemma SettingParts(s: State, n: nat)
    requires Setting(s, n)
    ensures Reachable(s) && Empty(s)
  {
  }

  lemma TurnedAt(before: map<TaskId, Task>, after: map<TaskId, Task>, ts: set<TaskId>, pc: Pc, outcome: Outcome)
    requires Turned(before, after, ts, pc, outcome)
    ensures forall t :: t in ts ==> t in before && t in after
                                    && after[t].pc == pc && after[t].outcome == outcome
                                    && after[t].Id() == before[t].Id() && after[t].gen == before[t].gen
  {
  }

  /** The record is purged. */
  lemma Forget(s: State, n: nat, ts: set<TaskId>, gens: set<Gen>, w: nat, starts: nat, changes: nat, purges: nat) returns (s': State)
    requires Stocked(s, n, ts, gens, w) && EVENT in s.completed && Counts(s.log, n, starts, changes, purges)
    ensures Stocked(s', n, ts, gens, w) && EVENT !in s'.completed && Counts(s'.log, n, starts, changes, purges + 1)
  {
    hide Reachable, Counts, Apply, Enabled, AllWait, OnGen;
    PurgeIs(s, EVENT);
    s' := Go(s, Purge(EVENT));
    Counted(s.log, RecordPurged(EVENT), n, starts, changes, purges);
    SameHolders(s, s');
  }

  /** After j rounds, each with its purge, of `rounds` that there is stock for. */
  lemma {:induction false} RoundsDone(n: nat, changes: nat, rounds: nat, j: nat)
    returns (s: State, ts: set<TaskId>, gens: set<Gen>)
    requires n >= 1 && j <= rounds
    ensures Stocked(s, n, ts, gens, n * (rounds - j)) && |gens| == changes + 1 && EVENT !in s.completed
    ensures Counts(s.log, n, n * (changes + 1) * j, changes, j)
    decreases j
  {
    hide Stocked, Counts;
    if j == 0 {
      s, ts, gens := Stock(n, changes, n * rounds);
    } else {
      var w := n * (rounds - (j - 1));
      s, ts, gens := RoundsDone(n, changes, rounds, j - 1);
      OneRound(n, rounds - j);
      OneRound(n * (changes + 1), j - 1);
      s, ts := Round(s, n, ts, gens, w, n * (changes + 1) * (j - 1), changes, j - 1);
      s := Forget(s, n, ts, gens, w - n, n * (changes + 1) * j, changes, j - 1);
    }
  }

  lemma OneRound(n: nat, j: nat)
    ensures n * (j + 1) == n * j + n >= n
  {
  }

  /** The bound is met: for every concurrency n, every number of changes and every
      number of purges, a run with no fault of another kind has n (changes + 1)
      (purges + 1) handler runs of one event. */
  lemma BoundMet(n: nat, changes: nat, purges: nat) returns (s: State)
    requires n >= 1
    ensures Reachable(s) && Peak(s.log, A) == n && Tally(s.log, Changes(A)) == RecentChanges(s.log, A) == Most(s.log, A) == changes
    ensures Tally(s.log, Purges(EVENT)) == purges
    ensures Tally(s.log, FailedLookups(EVENT)) == Tally(s.log, FailedMarks(EVENT)) == Tally(s.log, Restarts) == 0
    ensures Tally(s.log, Starts(EVENT)) == n * (changes + 1) * (purges + 1)
  {
    hide Reachable, Tally, Peak, RecentChanges, Most;
    var ts, gens;
    s, ts, gens := RoundsDone(n, changes, purges + 1, purges);
    OneRound(n * (changes + 1), purges);
    s, ts := Round(s, n, ts, gens, n, n * (changes + 1) * purges, changes, purges);
    AllRecent(s.log, A);
    RecentIsMost(s.log, A);
    MostWithinAll(s.log, A);
  }

  /** Without faults, one event invokes the handler at most once exactly for serial
      agents. */
  lemma OnceExactly(n: nat)
    ensures (forall s: State, k: Key :: Reachable(s) && Peak(s.log, k.agent) <= n && Faultless(s.log, k) ==>
               Tally(s.log, Starts(k)) <= 1)
       <==> n <= 1
  {
    hide Reachable, Tally, Peak;
    if n <= 1 {
      forall s: State, k: Key | Reachable(s) && Peak(s.log, k.agent) <= n && Faultless(s.log, k)
        ensures Tally(s.log, Starts(k)) <= 1
      {
        SerialRunsOnce(s, k);
      }
    } else {
      var s := BoundMet(n, 0, 0);
      assert EVENT.agent == A;
    }
  }
}
