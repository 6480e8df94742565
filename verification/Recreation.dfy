/** When the entry made after a change has the concurrency now configured. */
module Recreation {
  import opened Protocol
  import opened Steps
  import opened Counting
  import opened Invariants
  import opened Moves

  /** About to take a permit of its semaphore, or holding one and not past its insert. */
  predicate MayPutBack(k: Task) { k.pc.Waiting? || k.pc.Permitted? || k.pc.Armed? }

  /** What could make the entry with another concurrency than c. */
  predicate StalePoll(s: State, a: AgentId, c: nat, p: PollId) {
    p in s.polls && s.polls[p].agent == a && s.polls[p].conc != c
  }

  predicate StaleTask(s: State, a: AgentId, c: nat, t: TaskId) {
    && t in s.tasks && s.tasks[t].agent == a
    && (|| (s.tasks[t].pc == Checked && s.tasks[t].conc != c)
        || (MayPutBack(s.tasks[t]) && s.tasks[t].gen in s.sems && s.sems[s.tasks[t].gen].capacity != c))
  }

  /** A query of the free slots that read another concurrency, a task past the gates
      with another concurrency, or one that waits for or holds a permit of a
      semaphore of another capacity and has not inserted. */
  ghost predicate Stale(s: State, a: AgentId, c: nat) {
    (exists p :: StalePoll(s, a, c, p)) || (exists t :: StaleTask(s, a, c, t))
  }

  /** The agent's entry, if it has one, has this many permits. */
  predicate EntryHas(s: State, a: AgentId, c: nat) {
    a in s.states ==> s.states[a].permits in s.sems && s.sems[s.states[a].permits].capacity == c
  }

  ghost predicate UpToDate(s: State, a: AgentId, c: nat) {
    a in s.registry && s.registry[a].conc == c && EntryHas(s, a, c) && !Stale(s, a, c)
  }

  // ---- nothing stale comes from nothing stale ------------------------------

  predicate Reconfigures(act: Action, a: AgentId) { act.Configure? && act.agent == a }

  lemma RegistryStays(s: State, act: Action, a: AgentId)
    requires Enabled(s, act) && !Reconfigures(act, a) && a in s.registry
    ensures a in Apply(s, act).registry && Apply(s, act).registry[a] == s.registry[a]
  {
    RegistryIs(s, act);
    hide Apply;
  }

  lemma PollFresh(s: State, act: Action, a: AgentId, c: nat, p: PollId)
    requires UpToDate(s, a, c) && Enabled(s, act) && !Reconfigures(act, a)
    ensures !StalePoll(Apply(s, act), a, c, p)
  {
    PollsAre(s, act);
    assert !StalePoll(s, a, c, p);
    hide Apply;
  }

  lemma EntryFresh(s: State, act: Action, a: AgentId, c: nat)
    requires Wired(s) && UpToDate(s, a, c) && Enabled(s, act) && !Reconfigures(act, a)
    ensures EntryHas(Apply(s, act), a, c)
  {
    hide Apply, Enabled, TaskAfter, Wired;
    var s' := Apply(s, act);
    StatesStep(s, act);
    if a in s'.states {
      StatesWired(s, act, a);
      var g := s'.states[a].permits;
      if g in s.sems {
        SemKept(s, act, g);
        EntryFrom(s, act, a);
        if act.Insert? {
          assert !StaleTask(s, a, c, act.task);
        }
      } else {
        SemBorn(s, act, g);
        BornFrom(s, act, a);
        if act.Poll? {
          assert !StalePoll(s, a, c, act.poll);
        } else {
          assert !StaleTask(s, a, c, act.task);
        }
      }
    }
  }

  /** The semaphore of an entry was the entry's, or is put back by a task. */
  lemma EntryFrom(s: State, act: Action, a: AgentId)
    requires Enabled(s, act) && a in Apply(s, act).states && Apply(s, act).states[a].permits in s.sems
    requires Wired(s)
    ensures var g := Apply(s, act).states[a].permits;
      || (a in s.states && s.states[a].permits == g)
      || (act.Insert? && At(s, act.task, Armed) && s.tasks[act.task].agent == a && s.tasks[act.task].gen == g)
  {
    hide Apply;
    StatesStep(s, act);
  }

  lemma BornFrom(s: State, act: Action, a: AgentId)
    requires Wired(s) && Enabled(s, act) && !act.Crash? && a in Apply(s, act).states
    requires Apply(s, act).states[a].permits !in s.sems
    ensures act.Poll? ==> act.poll in s.polls && s.polls[act.poll].agent == a
    ensures act.Ensure? ==> At(s, act.task, Checked) && s.tasks[act.task].agent == a
  {
    hide Apply;
    StatesStep(s, act);
  }

  lemma TaskFresh(s: State, act: Action, a: AgentId, c: nat, t: TaskId)
    requires Wired(s) && UpToDate(s, a, c) && Enabled(s, act) && !Reconfigures(act, a)
    ensures !StaleTask(Apply(s, act), a, c, t)
  {
    var s' := Apply(s, act);
    if t in s'.tasks && s'.tasks[t].agent == a {
      if act.IsTaskStep() && act.task == t {
        if act.Ensure? {
          EnsureFresh(s, act, a, c);
        } else {
          ActorFresh(s, act, a, c);
        }
      } else {
        BystanderFresh(s, act, a, c, t);
      }
    }
  }

  lemma EnsureFresh(s: State, act: Action, a: AgentId, c: nat)
    requires Wired(s) && UpToDate(s, a, c) && Enabled(s, act) && act.Ensure? && s.tasks[act.task].agent == a
    ensures !StaleTask(Apply(s, act), a, c, act.task)
  {
    EntryFresh(s, act, a, c);
    EnsureJoins(s, act);
    hide Apply, Enabled;
  }

  lemma EnsureJoins(s: State, act: Action)
    requires Enabled(s, act) && act.Ensure?
    ensures var a, s' := s.tasks[act.task].agent, Apply(s, act);
      && a in s'.states && act.task in s'.tasks && s'.tasks[act.task].pc == Waiting
      && s'.tasks[act.task].gen == s'.states[a].permits
  {
  }

  lemma ActorFresh(s: State, act: Action, a: AgentId, c: nat)
    requires Wired(s) && UpToDate(s, a, c) && Enabled(s, act) && act.IsTaskStep() && !act.Ensure?
    requires s.tasks[act.task].agent == a
    ensures !StaleTask(Apply(s, act), a, c, act.task)
  {
    var k, k' := s.tasks[act.task], TaskAfter(s, act);
    assert !StaleTask(s, a, c, act.task) && WiredTask(s, k);
    assert k'.pc == Checked ==> act.Check? && k'.conc == s.registry[a].conc;
    assert MayPutBack(k') ==> MayPutBack(k) && k'.gen == k.gen;
    hide Apply, Enabled, TaskAfter, Wired;
    StepFrame(s, act);
    if k.gen in s.sems {
      SemKept(s, act, k.gen);
    }
  }

  lemma BystanderFresh(s: State, act: Action, a: AgentId, c: nat, t: TaskId)
    requires Wired(s) && UpToDate(s, a, c) && Enabled(s, act) && !(act.IsTaskStep() && act.task == t)
    ensures !StaleTask(Apply(s, act), a, c, t)
  {
    hide Apply, Enabled, TaskAfter;
    assert !StaleTask(s, a, c, t);
    if t in Apply(s, act).tasks {
      TaskCases(s, act, t);
    }
    if act.Crash? {
      CrashFrame(s);
    } else if t in s.tasks {
      assert WiredTask(s, s.tasks[t]);
      if s.tasks[t].gen in s.sems {
        SemKept(s, act, s.tasks[t].gen);
      }
    }
  }

  lemma UpToDateStep(s: State, act: Action, a: AgentId, c: nat)
    requires Wired(s) && UpToDate(s, a, c) && Enabled(s, act) && !Reconfigures(act, a)
    ensures UpToDate(Apply(s, act), a, c)
  {
    hide Apply, Enabled, Wired, EntryHas, StalePoll, StaleTask;
    RegistryStays(s, act, a);
    EntryFresh(s, act, a, c);
    forall p
      ensures !StalePoll(Apply(s, act), a, c, p)
    {
      PollFresh(s, act, a, c, p);
    }
    forall t
      ensures !StaleTask(Apply(s, act), a, c, t)
    {
      TaskFresh(s, act, a, c, t);
    }
  }

  lemma {:induction false} UpToDateRun(s: State, tr: seq<Action>, a: AgentId, c: nat)
    requires Sound(s) && UpToDate(s, a, c) && Legal(s, tr) && forall i :: 0 <= i < |tr| ==> !Reconfigures(tr[i], a)
    ensures UpToDate(After(s, tr), a, c)
    decreases |tr|
  {
    hide Apply, Enabled, UpToDate;
    if tr != [] {
      assert Wired(s);
      UpToDateStep(s, tr[0], a, c);
      SoundStep(s, tr[0]);
      UpToDateRun(Apply(s, tr[0]), tr[1..], a, c);
    }
  }

  // ---- something stale comes back ------------------------------------------

  /** No change and no new configuration of the agent. */
  predicate LeftAlone(tr: seq<Action>, a: AgentId) {
    forall act :: act in tr ==> act != ApplyChange(a) && !Reconfigures(act, a)
  }

  /** A task that holds a permit puts its semaphore back. */
  lemma PutBack(s: State, t: TaskId, a: AgentId) returns (tr: seq<Action>)
    requires a !in s.states && t in s.tasks && s.tasks[t].agent == a
    requires s.tasks[t].pc == Permitted || s.tasks[t].pc == Armed
    ensures Legal(s, tr) && LeftAlone(tr, a) && After(s, tr).sems == s.sems
    ensures a in After(s, tr).states && After(s, tr).states[a].permits == s.tasks[t].gen
  {
    hide Apply, Enabled, Legal, After;
    NoSteps(s);
    tr := [];
    var s1 := s;
    if s.tasks[t].pc == Permitted {
      LookupIs(s, t, false);
      tr, s1 := Next(s, [], Lookup(t, false));
    }
    InsertIs(s1, t);
    tr, s1 := Next(s, tr, Insert(t));
  }

  lemma GetPermit(s: State, t: TaskId, a: AgentId) returns (tr: seq<Action>)
    requires a !in s.states && At(s, t, Waiting) && s.tasks[t].agent == a
    requires s.tasks[t].gen in s.sems && s.sems[s.tasks[t].gen].free > 0
    ensures Legal(s, tr) && LeftAlone(tr, a)
    ensures var s', g := After(s, tr), s.tasks[t].gen;
      && a in s'.states && s'.states[a].permits == g && g in s'.sems && s'.sems[g].capacity == s.sems[g].capacity
  {
    hide Apply, Enabled, Legal, After;
    NoSteps(s);
    AcquireIs(s, t);
    var s1;
    tr, s1 := Next(s, [], Acquire(t));
    var rest := PutBack(s1, t, a);
    RunAppend(s, tr, rest);
    tr := tr + rest;
  }

  /** The run brings back the task's semaphore, and no change was needed for it. */
  ghost predicate BringsBack(s: State, tr: seq<Action>, a: AgentId, g: Gen) {
    && Legal(s, tr) && LeftAlone(tr, a) && g in s.sems
    && var s' := After(s, tr);
       && a in s'.states && s'.states[a].permits == g && g in s'.sems && s'.sems[g].capacity == s.sems[g].capacity
  }

  /** Through the holder of the permit that is waited for. */
  lemma ThroughHolder(s: State, t: TaskId, u: TaskId, a: AgentId) returns (tr: seq<Action>)
    requires a !in s.states && At(s, t, Waiting) && s.tasks[t].agent == a && s.tasks[t].gen in s.sems
    requires u in s.tasks && s.tasks[u].Holds() && s.tasks[u].agent == a && s.tasks[u].gen == s.tasks[t].gen
    ensures BringsBack(s, tr, a, s.tasks[t].gen)
  {
    hide Apply, Enabled, Legal, After;
    if s.tasks[u].pc == Permitted || s.tasks[u].pc == Armed {
      tr := PutBack(s, u, a);
    } else {
      var first := HolderEnds(s, u);
      var rest := GetPermit(After(s, first), t, a);
      RunAppend(s, first, rest);
      tr := first + rest;
    }
  }

  /** Whoever waits for or holds a permit can bring the semaphore back, when the
      agent has no entry: by itself, or through the holder it waits for. */
  lemma ComesBack(s: State, t: TaskId, a: AgentId) returns (tr: seq<Action>)
    requires Sound(s) && a !in s.states && t in s.tasks && s.tasks[t].agent == a && MayPutBack(s.tasks[t])
    ensures BringsBack(s, tr, a, s.tasks[t].gen)
  {
    var g := s.tasks[t].gen;
    WiredAt(s, t);
    hide Apply, Enabled, Legal, After, Conserved, NoPhantoms;
    if s.tasks[t].pc != Waiting {
      tr := PutBack(s, t, a);
    } else if s.sems[g].free > 0 {
      tr := GetPermit(s, t, a);
    } else {
      var u := SomeHolderOf(s, g);
      WiredAt(s, u);
      tr := ThroughHolder(s, t, u, a);
    }
  }

  lemma SomeHolderOf(s: State, g: Gen) returns (u: TaskId)
    requires Sound(s) && g in s.sems && s.sems[g].free == 0
    ensures u in s.tasks && s.tasks[u].Holds() && s.tasks[u].gen == g
  {
    assert s.sems[g].free + Num(s.tasks, HoldersOf(g)) == s.sems[g].capacity;
    u :| u in Sel(s.tasks, HoldersOf(g));
  }

  lemma StaleComesBack(s: State, a: AgentId, c: nat) returns (tr: seq<Action>)
    requires Sound(s) && a !in s.states && Stale(s, a, c)
    ensures Legal(s, tr) && LeftAlone(tr, a) && !EntryHas(After(s, tr), a, c)
  {
    var g := FreshNumber(s.sems.Keys);
    NoSteps(s);
    hide Apply, Enabled, Legal, After, Sound;
    var s1;
    if p :| StalePoll(s, a, c, p) {
      PollIs(s, p, g);
      tr, s1 := Next(s, [], Poll(p, g));
    } else {
      var t :| StaleTask(s, a, c, t);
      if s.tasks[t].pc == Checked {
        EnsureNewIs(s, t, g);
        tr, s1 := Next(s, [], Ensure(t, g));
      } else {
        tr := ComesBack(s, t, a);
      }
    }
  }

  // ---- the result ----------------------------------------------------------

  /** From a change to the agent until it is changed or configured again, whatever
      entry it has is of the concurrency configured. */
  ghost predicate EntriesStayCurrent(s: State, a: AgentId)
    requires a in s.registry
  {
    forall tr :: Legal(s, [ApplyChange(a)] + tr) && LeftAlone(tr, a) ==>
      EntryHas(After(s, [ApplyChange(a)] + tr), a, s.registry[a].conc)
  }

  /** The state is recreated with the new concurrency exactly when nothing stale is
      under way at the change. */
  lemma RecreatedCurrentExactly(s: State, a: AgentId)
    requires Reachable(s) && a in s.registry
    ensures EntriesStayCurrent(s, a) <==> !Stale(s, a, s.registry[a].conc)
  {
    var c, act := s.registry[a].conc, ApplyChange(a);
    ReachableSound(s);
    SoundStep(s, act);
    ApplyChangeIs(s, a);
    var s1 := Apply(s, act);
    assert StaleSame(s, s1, a, c) by { Unchanged(s, s1, a, c); }
    hide Apply, Enabled, Sound, Stale, Reachable, EntryHas;
    if Stale(s, a, c) {
      var tr := StaleComesBack(s1, a, c);
      Prefix(s, act, tr);
      assert !EntryHas(After(s, [act] + tr), a, c);
    } else {
      assert UpToDate(s1, a, c) by { assert EntryHas(s1, a, c) by { NoEntry(s1, a, c); } }
      forall tr | Legal(s, [act] + tr) && LeftAlone(tr, a)
        ensures EntryHas(After(s, [act] + tr), a, c)
      {
        assert ([act] + tr)[0] == act && ([act] + tr)[1..] == tr;
        UpToDateRun(s1, tr, a, c);
      }
    }
  }

  lemma NoEntry(s: State, a: AgentId, c: nat)
    requires a !in s.states
    ensures EntryHas(s, a, c)
  {
  }

  ghost predicate StaleSame(s: State, r: State, a: AgentId, c: nat) { Stale(s, a, c) <==> Stale(r, a, c) }

  lemma Unchanged(s: State, r: State, a: AgentId, c: nat)
    requires r.polls == s.polls && r.tasks == s.tasks && r.sems == s.sems
    ensures StaleSame(s, r, a, c)
  {
    assert forall p :: StalePoll(s, a, c, p) <==> StalePoll(r, a, c, p);
    assert forall t :: StaleTask(s, a, c, t) <==> StaleTask(r, a, c, t);
  }
}
