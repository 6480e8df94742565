/** When a serial agent's earlier message can still start after a later one. */
module Overtaking {
  import opened Common
  import opened Protocol
  import opened Steps
  import opened Counting
  import opened Invariants
  import opened EffectivelyOnce
  import opened NoLoss
  import opened Moves
  import opened Recreation
  import opened SerialOrder

  /** The gates that look at the message alone would let it pass. */
  predicate Passable(s: State, m: Message) {
    m.size <= s.maxBytes && m.envelope.Some? && m.envelope.value.agent == m.dest
  }

  predicate Unstarted(pc: Pc) {
    pc.Received? || pc.Checked? || pc.Waiting? || pc.Permitted? || pc.Armed? || pc.Inserted?
  }

  /** A live copy of the message stands before its start, its event has no record
      and no handler whose record is to come, and the gates can let it pass. */
  predicate LateCopy(s: State, a: AgentId, p: nat, t: TaskId) {
    && t in s.tasks && s.tasks[t].seqNo == p && s.tasks[t].agent == a && Unstarted(s.tasks[t].pc)
    && s.tasks[t].Id() !in s.completed && Num(s.tasks, Unrecorded(s.tasks[t].Id())) == 0
    && (s.tasks[t].pc == Received ==> p in s.slots && Passable(s, s.slots[p].msg))
  }

  ghost predicate MayStart(s: State, a: AgentId, p: nat) { exists t :: LateCopy(s, a, p, t) }

  /** A handler for the message starts after what the first history tells. */
  predicate StartsLater(before: seq<Obs>, log: seq<Obs>, a: AgentId, p: nat) {
    exists j :: |before| <= j < |log| && StartOf(log[j], a) && log[j].seqNo == p
  }

  ghost predicate CanStartLater(s: State, a: AgentId, p: nat) {
    exists tr :: Legal(s, tr) && Undisturbed(After(s, tr).log, a) && StartsLater(s.log, After(s, tr).log, a, p)
  }

  lemma ReachableSerial(s: State, a: AgentId)
    requires Reachable(s) && Undisturbed(s.log, a)
    ensures Serial(s, a)
  {
    hide Apply, Enabled, Undisturbed, Serial;
    var tr :| Legal(Init(s.maxBytes), tr) && After(Init(s.maxBytes), tr) == s;
    SerialInit(s.maxBytes, a);
    SerialRun(Init(s.maxBytes), tr, a);
  }

  // ---- a late start comes from a late copy ---------------------------------

  /** The start itself. */
  lemma StartNow(s: State, act: Action, a: AgentId, p: nat)
    requires Serial(s, a) && Undisturbed(s.log, a) && Enabled(s, act)
    requires Emits(s, act) != [] && StartOf(Emits(s, act)[0], a) && Emits(s, act)[0].seqNo == p
    ensures MayStart(s, a, p)
  {
    hide Apply, Enabled, Emits, Num, Accounted, Undisturbed, InLine, StartsKnown, Ordered, SettledProperly;
    StartEmitted(s, act, a);
    var t := act.task;
    assert RecordedTask(s, s.tasks[t]);
    HolderAlone(s, t, a);
    assert LateCopy(s, a, p, t);
  }

  /** A task about to start its handler leaves no other running. */
  lemma HolderAlone(s: State, t: TaskId, a: AgentId)
    requires Accounted(s) && Undisturbed(s.log, a) && At(s, t, Inserted) && s.tasks[t].agent == a
    ensures Num(s.tasks, Unrecorded(s.tasks[t].Id())) == 0
  {
    AccountedParts(s, a);
    SerialPeak(s, a);
    NoRecent(s, a);
    hide Accounted, Undisturbed, Sound, WithinPeak, FewGens, Peak, RecentChanges;
    if u :| u in Sel(s.tasks, Unrecorded(s.tasks[t].Id())) {
      OnlyHolder(s, t, u, a);
    } else {
      NumEmpty(s.tasks, Unrecorded(s.tasks[t].Id()));
    }
  }

  lemma NumEmpty(tasks: map<TaskId, Task>, q: Query)
    requires Sel(tasks, q) == {}
    ensures Num(tasks, q) == 0
  {
  }

  lemma NoRecent(s: State, a: AgentId)
    requires Undisturbed(s.log, a)
    ensures RecentChanges(s.log, a) == 0
  {
    RecentWithinAll(s.log, a);
  }

  /** The acting task was a late copy if it is one after its step. */
  lemma ActorLate(s: State, act: Action, a: AgentId, p: nat)
    requires Wired(s) && Enabled(s, act) && act.IsTaskStep()
    requires s.tasks[act.task].seqNo == p && Unstarted(TaskAfter(s, act).pc)
    ensures Unstarted(s.tasks[act.task].pc)
    ensures s.tasks[act.task].pc == Received ==> p in s.slots && Passable(s, s.slots[p].msg)
    ensures TaskAfter(s, act).pc != Received
  {
    assert WiredTask(s, s.tasks[act.task]);
  }

  lemma CopyWasLate(s: State, act: Action, a: AgentId, p: nat, t: TaskId)
    requires Wired(s) && Undisturbed(s.log, a) && Enabled(s, act) && Undisturbed(Apply(s, act).log, a)
    requires p in s.slots && Closed(s.slots[p].fate) && LateCopy(Apply(s, act), a, p, t)
    ensures LateCopy(s, a, p, t)
  {
    var s' := Apply(s, act);
    var k := s'.tasks[t].Id();
    UndisturbedBefore(s, act, a);
    hide Apply, Enabled, TaskAfter, Undisturbed, Num, Passable;
    CompletedStep(s, act, k);
    TaskCases(s, act, t);
    SlotsStep(s, act, p);
    if act.Deliver? && act.task == t {
      NotDelivered(s, act, p);
    } else if act.Crash? {
      assert false;
    } else {
      PhaseStep(s, act, k);
      PassableStep(s, act, s.slots[p].msg);
      if act.IsTaskStep() && act.task == t {
        ActorMoves(s, act);
        ActorLate(s, act, a, p);
      }
    }
  }

  lemma NotDelivered(s: State, act: Action, p: nat)
    requires Enabled(s, act) && act.Deliver? && p in s.slots && Closed(s.slots[p].fate)
    ensures act.seqNo != p
  {
  }

  lemma PassableStep(s: State, act: Action, m: Message)
    requires Enabled(s, act)
    ensures Passable(Apply(s, act), m) <==> Passable(s, m)
  {
    StepKeepsMaxBytes(s, act);
    hide Apply;
  }

  lemma {:induction false} LogExtends(s: State, tr: seq<Action>)
    requires Legal(s, tr)
    ensures s.log <= After(s, tr).log
    decreases |tr|
  {
    hide Apply, Enabled, Emits;
    if tr != [] {
      LogGrows(s, tr[0]);
      LogExtends(Apply(s, tr[0]), tr[1..]);
    }
  }

  lemma {:induction false} LateRun(s: State, tr: seq<Action>, a: AgentId, p: nat)
    requires Serial(s, a) && Legal(s, tr) && Undisturbed(After(s, tr).log, a)
    requires p in s.slots && Closed(s.slots[p].fate) && StartsLater(s.log, After(s, tr).log, a, p)
    ensures MayStart(s, a, p)
    decreases |tr|
  {
    hide Apply, Enabled, Undisturbed, Serial, Emits, MayStart;
    if tr != [] {
      var act, s1 := tr[0], Apply(s, tr[0]);
      UndisturbedAlong(s1, tr[1..], a);
      UndisturbedBefore(s, act, a);
      SerialStep(s, act, a);
      LogGrows(s, act);
      LogExtends(s1, tr[1..]);
      ClosedStays(s, act, p);
      if StartsLater(s1.log, After(s, tr).log, a, p) {
        LateRun(s1, tr[1..], a, p);
        assert Wired(s) by { SerialWired(s, a); }
        WasLate(s, act, a, p);
      } else {
        var j :| |s.log| <= j < |After(s, tr).log| && StartOf(After(s, tr).log[j], a) && After(s, tr).log[j].seqNo == p;
        assert s1.log[j] == After(s, tr).log[j];
        StartNow(s, act, a, p);
      }
    }
  }

  lemma SerialWired(s: State, a: AgentId)
    requires Serial(s, a)
    ensures Wired(s)
  {
  }

  lemma WasLate(s: State, act: Action, a: AgentId, p: nat)
    requires Wired(s) && Undisturbed(s.log, a) && Enabled(s, act) && Undisturbed(Apply(s, act).log, a)
    requires p in s.slots && Closed(s.slots[p].fate) && MayStart(Apply(s, act), a, p)
    ensures MayStart(s, a, p)
  {
    hide Apply, Enabled, Undisturbed, LateCopy, Wired;
    var t :| LateCopy(Apply(s, act), a, p, t);
    CopyWasLate(s, act, a, p, t);
  }

  // ---- a late copy can start -----------------------------------------------

  /** Steps that leave an undisturbed history so. */
  predicate Mild(act: Action) {
    || (act.IsTaskStep() && (act.Lookup? || act.Mark? ==> act.ok))
    || (act.Configure? && act.config.Some? && act.config.value.conc == 1)
  }

  lemma MildStep(s: State, act: Action, a: AgentId)
    requires Undisturbed(s.log, a) && Enabled(s, act) && Mild(act)
    ensures Undisturbed(Apply(s, act).log, a)
  {
    hide Apply, Peak, Tally;
    LogStep(s, act, Changes(a), a);
    LogStep(s, act, StoreFaults(a), a);
  }

  lemma {:induction false} MildRun(s: State, tr: seq<Action>, a: AgentId)
    requires Undisturbed(s.log, a) && Legal(s, tr) && forall act :: act in tr ==> Mild(act)
    ensures Undisturbed(After(s, tr).log, a)
    decreases |tr|
  {
    hide Apply, Enabled, Undisturbed;
    if tr != [] {
      MildStep(s, tr[0], a);
      MildRun(Apply(s, tr[0]), tr[1..], a);
    }
  }

  /** A reachable state whose history is undisturbed, and in it a copy with no record. */
  ghost predicate Startable(s: State, a: AgentId, p: nat, t: TaskId) {
    && Reachable(s) && Undisturbed(s.log, a) && t in s.tasks && s.tasks[t].seqNo == p && s.tasks[t].agent == a
    && s.tasks[t].Id() !in s.completed
  }

  /** One mild step, and then a run that starts the message. */
  lemma Ahead(s: State, act: Action, a: AgentId, p: nat, t: TaskId)
    requires Startable(s, a, p, t) && Enabled(s, act) && Mild(act)
    requires t in Apply(s, act).tasks && Apply(s, act).tasks[t].Id() == s.tasks[t].Id()
    requires Apply(s, act).tasks[t].seqNo == p && Apply(s, act).completed == s.completed
    ensures Startable(Apply(s, act), a, p, t)
  {
    MildStep(s, act, a);
    ReachableStep(s, act);
    hide Apply;
  }

  lemma Joined(s: State, first: seq<Action>, rest: seq<Action>, a: AgentId, p: nat)
    requires Legal(s, first) && CanStart(After(s, first), rest, a, p) && Undisturbed(s.log, a)
    requires forall act :: act in first ==> Mild(act)
    ensures CanStart(s, first + rest, a, p)
  {
    hide Apply, Enabled;
    RunAppend(s, first, rest);
    LogExtends(s, first);
  }

  predicate CanStart(s: State, tr: seq<Action>, a: AgentId, p: nat) {
    Legal(s, tr) && (forall act :: act in tr ==> Mild(act)) && StartsLater(s.log, After(s, tr).log, a, p)
  }

  lemma One(s: State, act: Action)
    requires Enabled(s, act)
    ensures Legal(s, [act]) && After(s, [act]) == Apply(s, act)
  {
    hide Apply, Enabled;
    assert [act][1..] == [];
  }

  lemma FromInserted(s: State, a: AgentId, p: nat, t: TaskId) returns (tr: seq<Action>)
    requires Startable(s, a, p, t) && s.tasks[t].pc == Inserted
    ensures CanStart(s, tr, a, p)
  {
    SpawnIs(s, t, true);
    hide Apply, Enabled;
    One(s, Spawn(t, true));
    tr := [Spawn(t, true)];
    assert StartOf(After(s, tr).log[|s.log|], a);
  }

  lemma FromArmed(s: State, a: AgentId, p: nat, t: TaskId) returns (tr: seq<Action>)
    requires Startable(s, a, p, t) && s.tasks[t].pc == Armed
    ensures CanStart(s, tr, a, p)
  {
    hide Apply, Enabled, InFlight, CanStart, Undisturbed, Reachable, Peak, RecentChanges;
    SerialPeak(s, a);
    NoRecent(s, a);
    SerialNeverDrops(s, t);
    InsertIs(s, t);
    var act := Insert(t);
    Ahead(s, act, a, p, t);
    var rest := FromInserted(Apply(s, act), a, p, t);
    One(s, act);
    Joined(s, [act], rest, a, p);
    tr := [act] + rest;
  }

  lemma FromPermitted(s: State, a: AgentId, p: nat, t: TaskId) returns (tr: seq<Action>)
    requires Startable(s, a, p, t) && s.tasks[t].pc == Permitted
    ensures CanStart(s, tr, a, p)
  {
    hide Apply, Enabled, CanStart, Undisturbed, Reachable;
    LookupIs(s, t, true);
    var act := Lookup(t, true);
    Ahead(s, act, a, p, t);
    var rest := FromArmed(Apply(s, act), a, p, t);
    One(s, act);
    Joined(s, [act], rest, a, p);
    tr := [act] + rest;
  }

  lemma FromFree(s: State, a: AgentId, p: nat, t: TaskId) returns (tr: seq<Action>)
    requires Startable(s, a, p, t) && s.tasks[t].pc == Waiting && s.tasks[t].gen in s.sems && s.sems[s.tasks[t].gen].free > 0
    ensures CanStart(s, tr, a, p)
  {
    hide Apply, Enabled, CanStart, Undisturbed, Reachable;
    AcquireIs(s, t);
    var act := Acquire(t);
    Ahead(s, act, a, p, t);
    var rest := FromPermitted(Apply(s, act), a, p, t);
    One(s, act);
    Joined(s, [act], rest, a, p);
    tr := [act] + rest;
  }

  /** The holder has moved on, and nothing but its place has changed, nor a record. */
  predicate Moved(s: State, s': State, u: TaskId) {
    && u in s.tasks && u in s'.tasks && s'.tasks == s.tasks[u := s'.tasks[u]]
    && s'.tasks[u].Id() == s.tasks[u].Id() && s'.tasks[u].gen == s.tasks[u].gen
    && (s'.tasks[u].Unrecorded() ==> s.tasks[u].Unrecorded())
    && s'.sems == s.sems && s'.completed == s.completed
  }

  lemma ArmedCommits(s: State, u: TaskId) returns (tr: seq<Action>)
    requires At(s, u, Armed)
    ensures Legal(s, tr) && (forall act :: act in tr ==> Mild(act))
    ensures Moved(s, After(s, tr), u) && Committed(After(s, tr).tasks[u])
  {
    InsertIs(s, u);
    hide Apply, Enabled, InFlight;
    One(s, Insert(u));
    tr := [Insert(u)];
  }

  /** A holder that has not inserted gets past its insert, or past the need for one. */
  lemma HolderCommits(s: State, u: TaskId) returns (tr: seq<Action>)
    requires u in s.tasks && s.tasks[u].Holds()
    ensures Legal(s, tr) && (forall act :: act in tr ==> Mild(act))
    ensures Moved(s, After(s, tr), u) && Committed(After(s, tr).tasks[u])
  {
    hide Apply, Enabled, Legal, After, InFlight;
    if s.tasks[u].pc == Permitted {
      var act := Lookup(u, true);
      LookupIs(s, u, true);
      One(s, act);
      tr := [act];
      var s1 := After(s, tr);
      if s1.tasks[u].pc == Armed {
        var rest := ArmedCommits(s1, u);
        RunAppend(s, tr, rest);
        tr := tr + rest;
      }
    } else if s.tasks[u].pc == Armed {
      tr := ArmedCommits(s, u);
    } else {
      NoSteps(s);
      tr := [];
    }
  }

  /** The holder of the permit ends, without a record for another event. */
  lemma HolderGivesUp(s: State, u: TaskId) returns (tr: seq<Action>)
    requires u in s.tasks && s.tasks[u].Holds() && s.tasks[u].gen in s.sems
    ensures Legal(s, tr) && forall act :: act in tr ==> Mild(act)
    ensures var s' := After(s, tr);
      && u in s'.tasks && s'.tasks == s.tasks[u := s'.tasks[u]]
      && s.tasks[u].gen in s'.sems && s'.sems[s.tasks[u].gen].free > 0
      && (s'.completed == s.completed || (s.tasks[u].Unrecorded() && s'.completed == s.completed + {s.tasks[u].Id()}))
  {
    tr := HolderCommits(s, u);
    hide Apply, Enabled, Legal, After;
    var rest := HolderEnds(After(s, tr), u);
    RunAppend(s, tr, rest);
    tr := tr + rest;
  }

  lemma NoneFits(tasks: map<TaskId, Task>, q: Query, u: TaskId)
    requires Num(tasks, q) == 0 && u in tasks
    ensures !Fits(q, tasks[u])
  {
    assert u in Sel(tasks, q) <==> Fits(q, tasks[u]);
  }

  lemma FromWaiting(s: State, a: AgentId, p: nat, t: TaskId) returns (tr: seq<Action>)
    requires Startable(s, a, p, t) && s.tasks[t].pc == Waiting && Num(s.tasks, Unrecorded(s.tasks[t].Id())) == 0
    ensures CanStart(s, tr, a, p)
  {
    hide Apply, Enabled, Legal, After, CanStart, Num, Reachable, Undisturbed;
    ReachableSound(s);
    WiredAt(s, t);
    var g := s.tasks[t].gen;
    if s.sems[g].free > 0 {
      tr := FromFree(s, a, p, t);
    } else {
      var u := SomeHolderOf(s, g);
      NoneFits(s.tasks, Unrecorded(s.tasks[t].Id()), u);
      var first := HolderGivesUp(s, u);
      var s1 := After(s, first);
      ReachableRun(s, first);
      MildRun(s, first, a);
      assert s1.tasks[t] == s.tasks[t];
      var rest := FromFree(s1, a, p, t);
      Joined(s, first, rest, a, p);
      tr := first + rest;
    }
  }

  lemma FromChecked(s: State, a: AgentId, p: nat, t: TaskId) returns (tr: seq<Action>)
    requires Startable(s, a, p, t) && s.tasks[t].pc == Checked && Num(s.tasks, Unrecorded(s.tasks[t].Id())) == 0
    ensures CanStart(s, tr, a, p)
  {
    hide Apply, Enabled, CanStart, Undisturbed, Num, Reachable, EnsureSem, EnsureEntry;
    var g := FreshNumber(s.sems.Keys);
    var act := Ensure(t, g);
    EnsureAnyIs(s, t, g);
    Ahead(s, act, a, p, t);
    var s1 := Apply(s, act);
    StillNone(s, s1, t);
    var rest := FromWaiting(s1, a, p, t);
    One(s, act);
    Joined(s, [act], rest, a, p);
    tr := [act] + rest;
  }

  /** Its gates pass now. */
  lemma FromGate(s: State, a: AgentId, p: nat, t: TaskId) returns (tr: seq<Action>)
    requires Startable(s, a, p, t) && s.tasks[t].pc == Received && Num(s.tasks, Unrecorded(s.tasks[t].Id())) == 0
    requires p in s.slots && Verdict(s, s.slots[p].msg) == Undecided
    ensures CanStart(s, tr, a, p)
  {
    hide Apply, Enabled, CanStart, Undisturbed, Num, Reachable, Verdict;
    var act := Check(t);
    CheckIs(s, t);
    Ahead(s, act, a, p, t);
    var s1 := Apply(s, act);
    StillNone(s, s1, t);
    var rest := FromChecked(s1, a, p, t);
    One(s, act);
    Joined(s, [act], rest, a, p);
    tr := [act] + rest;
  }

  /** Moved on, but not to a running handler. */
  lemma StillNone(s: State, s': State, t: TaskId)
    requires t in s.tasks && t in s'.tasks && s'.tasks == s.tasks[t := s'.tasks[t]] && s'.tasks[t].Id() == s.tasks[t].Id()
    requires Num(s.tasks, Unrecorded(s.tasks[t].Id())) == 0 && !s'.tasks[t].Unrecorded()
    ensures Num(s'.tasks, Unrecorded(s.tasks[t].Id())) == 0
  {
    NumUpdate(s.tasks, t, s'.tasks[t], Unrecorded(s.tasks[t].Id()));
  }

  lemma MayPass(s: State, a: AgentId, m: Message)
    requires Passable(s, m) && m.dest == a && a in s.registry && s.registry[a].enabled
    ensures Verdict(s, m) == Undecided
  {
  }

  lemma DestOf(s: State, t: TaskId)
    requires Reachable(s) && t in s.tasks
    ensures s.tasks[t].seqNo in s.slots && s.slots[s.tasks[t].seqNo].msg.dest == s.tasks[t].agent
  {
    ReachableSound(s);
    WiredAt(s, t);
  }

  lemma FromReceived(s: State, a: AgentId, p: nat, t: TaskId) returns (tr: seq<Action>)
    requires Startable(s, a, p, t) && s.tasks[t].pc == Received && Num(s.tasks, Unrecorded(s.tasks[t].Id())) == 0
    requires p in s.slots && Passable(s, s.slots[p].msg)
    ensures CanStart(s, tr, a, p)
  {
    hide Apply, Enabled, CanStart, Undisturbed, Num, Reachable, Verdict;
    DestOf(s, t);
    var act := Configure(a, Some(Config(1, true)));
    ConfigureIs(s, a, Config(1, true));
    Ahead(s, act, a, p, t);
    var s1 := Apply(s, act);
    MayPass(s1, a, s1.slots[p].msg);
    var rest := FromGate(s1, a, p, t);
    One(s, act);
    Joined(s, [act], rest, a, p);
    tr := [act] + rest;
  }

  lemma LateCopyStarts(s: State, a: AgentId, p: nat, t: TaskId) returns (tr: seq<Action>)
    requires Reachable(s) && Undisturbed(s.log, a) && LateCopy(s, a, p, t)
    ensures CanStart(s, tr, a, p)
  {
    hide Reachable, Undisturbed, CanStart, Num, Passable;
    match s.tasks[t].pc {
      case Received => tr := FromReceived(s, a, p, t);
      case Checked => tr := FromChecked(s, a, p, t);
      case Waiting => tr := FromWaiting(s, a, p, t);
      case Permitted => tr := FromPermitted(s, a, p, t);
      case Armed => tr := FromArmed(s, a, p, t);
      case Inserted => tr := FromInserted(s, a, p, t);
    }
  }

  // ---- the result ----------------------------------------------------------

  /** Once a later message of an undisturbed serial agent has started, an earlier
      one can still start, in a run that stays undisturbed, exactly when a late
      copy of it is about. */
  lemma OvertakenExactly(s: State, a: AgentId, p: nat, i: nat)
    requires Reachable(s) && Undisturbed(s.log, a)
    requires p in s.slots && s.slots[p].msg.dest == a
    requires i < |s.log| && StartOf(s.log[i], a) && p < s.log[i].seqNo
    ensures CanStartLater(s, a, p) <==> MayStart(s, a, p)
  {
    assert Serial(s, a) by { ReachableSerial(s, a); }
    assert Closed(s.slots[p].fate) by { EarlierClosed(s, a, p, i); }
    hide Apply, Enabled, Undisturbed, Serial, Reachable, StartsLater, LateCopy;
    if CanStartLater(s, a, p) {
      var tr :| Legal(s, tr) && Undisturbed(After(s, tr).log, a) && StartsLater(s.log, After(s, tr).log, a, p);
      LateRun(s, tr, a, p);
    }
    if t :| LateCopy(s, a, p, t) {
      var tr := LateCopyStarts(s, a, p, t);
      MildRun(s, tr, a);
    }
  }

  lemma EarlierClosed(s: State, a: AgentId, p: nat, i: nat)
    requires Serial(s, a) && p in s.slots && s.slots[p].msg.dest == a
    requires i < |s.log| && StartOf(s.log[i], a) && p < s.log[i].seqNo
    ensures Closed(s.slots[p].fate)
  {
    assert ClosedBelow(s, a, s.log[i].seqNo);
  }
}
