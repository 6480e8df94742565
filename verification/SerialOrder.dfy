/** The order in which a serial agent's handlers start. */
module SerialOrder {
  import opened Protocol
  import opened Counting
  import opened Invariants
  import opened EffectivelyOnce
  import opened NoLoss

  /** The history of an agent that was never configured above one handler at a
      time, had no entry dropped by a change, and met no store failure and no purge. */
  ghost predicate Undisturbed(log: seq<Obs>, a: AgentId) {
    && Peak(log, a) <= 1
    && Tally(log, Changes(a)) == 0
    && Tally(log, StoreFaults(a)) == 0
  }

  predicate Closed(f: Fate) { f.Settled? || f.Expired? }

  predicate ClosedBelow(s: State, a: AgentId, q: nat) {
    forall p :: p in s.slots && p < q && s.slots[p].msg.dest == a ==> Closed(s.slots[p].fate)
  }

  /** A message is out with the dispatcher only when all earlier ones are closed. */
  ghost predicate InLine(s: State, a: AgentId) {
    && (a in s.limits ==> s.limits[a] <= Peak(s.log, a))
    && (forall n: nat :: Configured(a, n) in s.log ==> n <= Peak(s.log, a))
    && (forall q :: q in s.slots && s.slots[q].msg.dest == a && s.slots[q].fate == Pending ==> ClosedBelow(s, a, q))
    && (forall t :: t in s.tasks && s.tasks[t].agent == a ==> ClosedBelow(s, a, s.tasks[t].seqNo))
  }

  /** Once an event is recorded, no handler is on its way to start it again. */
  ghost predicate Recorded(s: State, a: AgentId) {
    && (forall t :: t in s.tasks && s.tasks[t].agent == a ==> RecordedTask(s, s.tasks[t]))
    && (forall q :: q in s.slots && s.slots[q].msg.dest == a && s.slots[q].fate == Settled(Acked) ==>
          KeyOf(s.slots[q].msg) in s.completed)
  }

  predicate RecordedTask(s: State, k: Task) {
    && (k.pc == Marked || k.outcome == Acked ==> k.Id() in s.completed)
    && (k.BeforeStart() ==> k.Id() !in s.completed)
  }

  predicate Excused(s: State, q: nat) {
    q in s.slots && (s.slots[q].fate.Expired? || (s.slots[q].fate.Settled? && s.slots[q].fate.how.Termed?))
  }

  predicate StartOf(o: Obs, a: AgentId) { o.HandlerStarted? && o.key.agent == a }

  /** The start at j is of an earlier message than the start at i before it. */
  predicate Overtaken(log: seq<Obs>, i: nat, j: nat, a: AgentId)
    requires i < j < |log|
  {
    StartOf(log[i], a) && StartOf(log[j], a) && log[j].seqNo < log[i].seqNo
  }

  /** Starts out of stream order are of messages already termed or expired, and
      every message below a started one is closed. */
  ghost predicate Ordered(s: State, a: AgentId) {
    && (forall i, j :: 0 <= i < j < |s.log| && Overtaken(s.log, i, j, a) ==> Excused(s, s.log[j].seqNo))
    && (forall i :: 0 <= i < |s.log| && StartOf(s.log[i], a) ==> ClosedBelow(s, a, s.log[i].seqNo))
  }

  // ---- histories only grow -------------------------------------------------

  lemma UndisturbedBefore(s: State, act: Action, a: AgentId)
    requires Enabled(s, act) && Undisturbed(Apply(s, act).log, a)
    ensures Undisturbed(s.log, a)
    ensures act.IsTaskStep() && act.task in s.tasks && s.tasks[act.task].agent == a ==>
      (act.Lookup? || act.Mark? ==> act.ok)
    ensures act.Purge? ==> act.key.agent != a
  {
    hide Apply, Peak, Tally;
    PeakStep(s, act, a);
    TallyStep(s, act, Changes(a));
    TallyStep(s, act, StoreFaults(a));
  }

  lemma {:induction false} UndisturbedAlong(s: State, tr: seq<Action>, a: AgentId)
    requires Legal(s, tr) && Undisturbed(After(s, tr).log, a)
    ensures Undisturbed(s.log, a)
    decreases |tr|
  {
    hide Apply, Enabled, Undisturbed;
    if tr != [] {
      UndisturbedAlong(Apply(s, tr[0]), tr[1..], a);
      UndisturbedBefore(s, tr[0], a);
    }
  }

  // ---- deliveries in line --------------------------------------------------

  lemma ClosedStays(s: State, act: Action, q: nat)
    requires Enabled(s, act) && q in s.slots && Closed(s.slots[q].fate)
    ensures q in Apply(s, act).slots && Apply(s, act).slots[q] == s.slots[q]
  {
    SlotsStep(s, act, q);
    FateStep(s, act, q);
    hide Apply;
  }

  lemma ClosedBelowStays(s: State, act: Action, a: AgentId, q: nat)
    requires Enabled(s, act) && ClosedBelow(s, a, q) && (act.Publish? ==> q in s.slots)
    ensures ClosedBelow(Apply(s, act), a, q)
  {
    var s' := Apply(s, act);
    forall p | p in s'.slots && p < q && s'.slots[p].msg.dest == a
      ensures Closed(s'.slots[p].fate)
    {
      FateStep(s, act, p);
      if p in s.slots {
        ClosedStays(s, act, p);
      }
    }
  }

  /** A delivery under a limit of one finds every earlier message closed. */
  lemma DeliveredInLine(s: State, t: TaskId, q: nat, a: AgentId)
    requires InLine(s, a) && Peak(s.log, a) <= 1
    requires Enabled(s, Deliver(t, q)) && s.slots[q].msg.dest == a
    ensures ClosedBelow(s, a, q)
  {
    if s.slots[q].fate == Queued {
      assert NextInLine(s, q);
      var out := Outstanding(s.slots, a);
      assert |out| == 0;
      forall p | p in s.slots && p < q && s.slots[p].msg.dest == a
        ensures Closed(s.slots[p].fate)
      {
        assert p !in out;
      }
    }
  }

  lemma LimitStep(s: State, act: Action, a: AgentId)
    requires InLine(s, a) && Enabled(s, act)
    ensures a in Apply(s, act).limits ==> Apply(s, act).limits[a] <= Peak(Apply(s, act).log, a)
    ensures forall n: nat :: Configured(a, n) in Apply(s, act).log ==> n <= Peak(Apply(s, act).log, a)
  {
    hide Peak;
    PeakStep(s, act, a);
  }

  lemma InLineStep(s: State, act: Action, a: AgentId)
    requires Wired(s) && InLine(s, a) && Enabled(s, act) && Undisturbed(s.log, a)
    ensures InLine(Apply(s, act), a)
  {
    var s' := Apply(s, act);
    hide Apply, Enabled, Peak, Tally, ClosedBelow;
    LimitStep(s, act, a);
    forall q | q in s'.slots && s'.slots[q].msg.dest == a && s'.slots[q].fate == Pending
      ensures ClosedBelow(s', a, q)
    {
      FateStep(s, act, q);
      if act.Deliver? && act.seqNo == q {
        DeliveredInLine(s, act.task, q, a);
      }
      ClosedBelowStays(s, act, a, q);
    }
    forall t | t in s'.tasks && s'.tasks[t].agent == a
      ensures ClosedBelow(s', a, s'.tasks[t].seqNo)
    {
      TaskInLine(s, act, a, t);
    }
  }

  lemma SerialPeak(s: State, a: AgentId)
    requires Undisturbed(s.log, a)
    ensures Peak(s.log, a) <= 1
  {
  }

  lemma TaskInLine(s: State, act: Action, a: AgentId, t: TaskId)
    requires Wired(s) && InLine(s, a) && Enabled(s, act) && Undisturbed(s.log, a)
    requires t in Apply(s, act).tasks && Apply(s, act).tasks[t].agent == a
    ensures ClosedBelow(Apply(s, act), a, Apply(s, act).tasks[t].seqNo)
  {
    hide Apply, Enabled, TaskAfter, Peak, Tally, ClosedBelow, Undisturbed;
    assert Peak(s.log, a) <= 1 by { SerialPeak(s, a); }
    TaskCases(s, act, t);
    if act.Deliver? && act.task == t {
      DeliveredInLine(s, t, act.seqNo, a);
    } else {
      assert WiredTask(s, s.tasks[t]);
      if act.IsTaskStep() {
        ActorMoves(s, act);
      }
    }
    ClosedBelowStays(s, act, a, Apply(s, act).tasks[t].seqNo);
  }

  // ---- recorded events do not start ----------------------------------------

  /** The task that records an event holds the only permit, so nobody else is
      between its lookup and its start. */
  lemma MarkAlone(s: State, m: TaskId, t: TaskId, a: AgentId)
    requires Sound(s) && WithinPeak(s) && FewGens(s, a) && Undisturbed(s.log, a)
    requires At(s, m, Exited) && s.tasks[m].agent == a
    requires t in s.tasks && s.tasks[t].agent == a
    ensures !s.tasks[t].BeforeStart()
  {
    RecentWithinAll(s.log, a);
    if s.tasks[t].BeforeStart() {
      OnlyHolder(s, m, t, a);
    }
  }

  lemma MarkFrom(s: State, act: Action)
    requires act.Mark? && Enabled(s, act)
    ensures At(s, act.task, Exited)
  {
  }

  lemma ActorRecorded(s: State, act: Action, a: AgentId)
    requires Recorded(s, a) && Enabled(s, act) && act.IsTaskStep() && s.tasks[act.task].agent == a
    requires act.Lookup? || act.Mark? ==> act.ok
    ensures var k' := TaskAfter(s, act);
      && (k'.pc == Marked || k'.outcome == Acked ==> act.Mark? || k'.Id() in s.completed)
      && (k'.BeforeStart() ==> !act.Mark? && k'.Id() !in s.completed)
  {
    assert RecordedTask(s, s.tasks[act.task]);
  }

  lemma TaskRecorded(s: State, act: Action, a: AgentId, t: TaskId)
    requires Sound(s) && WithinPeak(s) && FewGens(s, a) && Undisturbed(s.log, a) && Recorded(s, a)
    requires Enabled(s, act) && Undisturbed(Apply(s, act).log, a)
    requires t in Apply(s, act).tasks && Apply(s, act).tasks[t].agent == a
    ensures RecordedTask(Apply(s, act), Apply(s, act).tasks[t])
  {
    hide Apply, Enabled, TaskAfter, Sound, WithinPeak, FewGens, Undisturbed;
    UndisturbedBefore(s, act, a);
    var k' := Apply(s, act).tasks[t];
    CompletedStep(s, act, k'.Id());
    TaskCases(s, act, t);
    if act.IsTaskStep() && act.task == t {
      ActorMoves(s, act);
      ActorRecorded(s, act, a);
    } else if t in s.tasks {
      assert RecordedTask(s, s.tasks[t]);
      if act.Mark? {
        MarkFrom(s, act);
        if s.tasks[act.task].Id() == k'.Id() {
          MarkAlone(s, act.task, t, a);
        }
      }
    }
  }

  lemma SlotRecorded(s: State, act: Action, a: AgentId, q: nat)
    requires Wired(s) && Recorded(s, a) && Enabled(s, act)
    requires act.Purge? ==> act.key.agent != a
    requires q in Apply(s, act).slots && Apply(s, act).slots[q].msg.dest == a
    requires Apply(s, act).slots[q].fate == Settled(Acked)
    ensures KeyOf(Apply(s, act).slots[q].msg) in Apply(s, act).completed
  {
    hide Apply;
    FateStep(s, act, q);
    CompletedStep(s, act, KeyOf(s.slots[q].msg));
    if act.Resolve? {
      assert WiredTask(s, s.tasks[act.task]);
      if s.tasks[act.task].agent == a {
        assert RecordedTask(s, s.tasks[act.task]);
      }
    }
  }

  lemma SlotsRecorded(s: State, act: Action, a: AgentId)
    requires Wired(s) && Recorded(s, a) && Enabled(s, act)
    requires act.Purge? ==> act.key.agent != a
    ensures forall q :: q in Apply(s, act).slots && Apply(s, act).slots[q].msg.dest == a && Apply(s, act).slots[q].fate == Settled(Acked) ==>
      KeyOf(Apply(s, act).slots[q].msg) in Apply(s, act).completed
  {
    hide Apply, Enabled, Recorded, Wired;
    var s' := Apply(s, act);
    forall q | q in s'.slots && s'.slots[q].msg.dest == a && s'.slots[q].fate == Settled(Acked)
      ensures KeyOf(s'.slots[q].msg) in s'.completed
    {
      SlotRecorded(s, act, a, q);
    }
  }

  lemma RecordedStep(s: State, act: Action, a: AgentId)
    requires Sound(s) && WithinPeak(s) && FewGens(s, a) && Undisturbed(s.log, a) && Recorded(s, a)
    requires Enabled(s, act) && Undisturbed(Apply(s, act).log, a)
    ensures Recorded(Apply(s, act), a)
  {
    var s' := Apply(s, act);
    assert Wired(s);
    UndisturbedBefore(s, act, a);
    SlotsRecorded(s, act, a);
    hide Apply, Enabled, WithinPeak, FewGens, Undisturbed, RecordedTask, Sound, Wired;
    forall t | t in s'.tasks && s'.tasks[t].agent == a
      ensures RecordedTask(s', s'.tasks[t])
    {
      TaskRecorded(s, act, a, t);
    }
  }

  // ---- starts in order -----------------------------------------------------

  /** A handler about to start for a closed message: it was termed or expired,
      not acked. */
  lemma LateStartExcused(s: State, t: TaskId, a: AgentId)
    requires Wired(s) && Recorded(s, a) && SettledProperly(s)
    requires At(s, t, Inserted) && s.tasks[t].agent == a
    requires Closed(s.slots[s.tasks[t].seqNo].fate)
    ensures Excused(s, s.tasks[t].seqNo)
  {
    assert WiredTask(s, s.tasks[t]) && RecordedTask(s, s.tasks[t]);
  }

  lemma StartEmitted(s: State, act: Action, a: AgentId)
    requires Enabled(s, act) && Emits(s, act) != [] && StartOf(Emits(s, act)[0], a)
    ensures act == Spawn(act.task, true) && At(s, act.task, Inserted) && s.tasks[act.task].agent == a
    ensures Emits(s, act)[0].seqNo == s.tasks[act.task].seqNo
    ensures Apply(s, act).slots == s.slots
  {
  }

  lemma ExcusedStays(s: State, act: Action, q: nat)
    requires Enabled(s, act) && Excused(s, q)
    ensures Excused(Apply(s, act), q)
  {
    ClosedStays(s, act, q);
    hide Apply;
  }

  /** An old start stays as it was; what is new comes from the step's own start. */
  lemma StartBelow(s: State, act: Action, a: AgentId, i: nat)
    requires Wired(s) && InLine(s, a) && Ordered(s, a) && Enabled(s, act)
    requires i < |Apply(s, act).log| && StartOf(Apply(s, act).log[i], a)
    requires forall j :: 0 <= j < |s.log| && StartOf(s.log[j], a) ==> s.log[j].seqNo in s.slots
    ensures ClosedBelow(Apply(s, act), a, Apply(s, act).log[i].seqNo)
  {
    hide Apply, Enabled, Emits, ClosedBelow;
    LogGrows(s, act);
    if i < |s.log| {
      assert Apply(s, act).log[i] == s.log[i];
      ClosedBelowStays(s, act, a, s.log[i].seqNo);
    } else {
      StartEmitted(s, act, a);
      ClosedBelowStays(s, act, a, s.tasks[act.task].seqNo);
    }
  }

  ghost predicate StartsKnown(s: State, a: AgentId) {
    forall j :: 0 <= j < |s.log| && StartOf(s.log[j], a) ==>
      s.log[j].seqNo in s.slots && s.slots[s.log[j].seqNo].msg.dest == a
  }

  lemma StartKnown(s: State, act: Action, a: AgentId, j: nat)
    requires Wired(s) && StartsKnown(s, a) && Enabled(s, act)
    requires j < |Apply(s, act).log| && StartOf(Apply(s, act).log[j], a)
    ensures var s' := Apply(s, act);
      s'.log[j].seqNo in s'.slots && s'.slots[s'.log[j].seqNo].msg.dest == a
  {
    hide Apply, Enabled, Emits, Wired;
    LogGrows(s, act);
    if j < |s.log| {
      assert Apply(s, act).log[j] == s.log[j];
      SlotsStep(s, act, s.log[j].seqNo);
    } else {
      StartEmitted(s, act, a);
      WiredAt(s, act.task);
    }
  }

  lemma StartsKnownStep(s: State, act: Action, a: AgentId)
    requires Wired(s) && StartsKnown(s, a) && Enabled(s, act)
    ensures StartsKnown(Apply(s, act), a)
  {
    hide Apply, Enabled, Wired;
    forall j | 0 <= j < |Apply(s, act).log| && StartOf(Apply(s, act).log[j], a)
      ensures Apply(s, act).log[j].seqNo in Apply(s, act).slots
      ensures Apply(s, act).slots[Apply(s, act).log[j].seqNo].msg.dest == a
    {
      StartKnown(s, act, a, j);
    }
  }

  lemma PairExcused(s: State, act: Action, a: AgentId, i: nat, j: nat)
    requires Wired(s) && Recorded(s, a) && SettledProperly(s) && Ordered(s, a) && StartsKnown(s, a) && Enabled(s, act)
    requires i < j < |Apply(s, act).log| && Overtaken(Apply(s, act).log, i, j, a)
    ensures Excused(Apply(s, act), Apply(s, act).log[j].seqNo)
  {
    hide Apply, Enabled, Emits, Excused;
    LogGrows(s, act);
    assert Apply(s, act).log[i] == s.log[i];
    if j < |s.log| {
      assert Apply(s, act).log[j] == s.log[j];
      assert Overtaken(s.log, i, j, a);
      ExcusedStays(s, act, s.log[j].seqNo);
    } else {
      StartEmitted(s, act, a);
      var t := act.task;
      assert WiredTask(s, s.tasks[t]);
      assert ClosedBelow(s, a, s.log[i].seqNo);
      LateStartExcused(s, t, a);
      ExcusedStays(s, act, s.tasks[t].seqNo);
    }
  }

  lemma OrderedStep(s: State, act: Action, a: AgentId)
    requires Wired(s) && InLine(s, a) && Recorded(s, a) && SettledProperly(s)
    requires Ordered(s, a) && StartsKnown(s, a) && Enabled(s, act)
    ensures Ordered(Apply(s, act), a)
  {
    var s' := Apply(s, act);
    hide Apply, Enabled, Overtaken, Excused, ClosedBelow, InLine, Recorded, SettledProperly, Wired;
    forall i, j | 0 <= i < j < |s'.log| && Overtaken(s'.log, i, j, a)
      ensures Excused(s', s'.log[j].seqNo)
    {
      PairExcused(s, act, a, i, j);
    }
    forall i | 0 <= i < |s'.log| && StartOf(s'.log[i], a)
      ensures ClosedBelow(s', a, s'.log[i].seqNo)
    {
      StartBelow(s, act, a, i);
    }
  }

  ghost predicate Serial(s: State, a: AgentId) {
    && Accounted(s) && SettledProperly(s) && (forall t :: Tidy(s, t))
    && InLine(s, a) && Recorded(s, a) && StartsKnown(s, a) && Ordered(s, a)
  }

  lemma SerialStep(s: State, act: Action, a: AgentId)
    requires Serial(s, a) && Enabled(s, act) && Undisturbed(Apply(s, act).log, a)
    ensures Serial(Apply(s, act), a)
  {
    hide Apply, Enabled, Undisturbed, InLine, Recorded, StartsKnown, Ordered, SettledProperly, Tidy, Accounted, Conserved, Wired;
    AccountedParts(s, a);
    UndisturbedBefore(s, act, a);
    AccountedStep(s, act);
    SettledProperlyStep(s, act);
    forall t
      ensures Tidy(Apply(s, act), t)
    {
      TidyStep(s, act, t);
    }
    InLineStep(s, act, a);
    RecordedStep(s, act, a);
    StartsKnownStep(s, act, a);
    OrderedStep(s, act, a);
  }

  lemma {:induction false} SerialRun(s: State, tr: seq<Action>, a: AgentId)
    requires Serial(s, a) && Legal(s, tr) && Undisturbed(After(s, tr).log, a)
    ensures Serial(After(s, tr), a)
    decreases |tr|
  {
    hide Apply, Enabled, Undisturbed, Serial;
    if tr != [] {
      UndisturbedAlong(Apply(s, tr[0]), tr[1..], a);
      SerialStep(s, tr[0], a);
      SerialRun(Apply(s, tr[0]), tr[1..], a);
    }
  }

  lemma SerialInit(maxBytes: nat, a: AgentId)
    ensures Serial(Init(maxBytes), a)
  {
    hide Tally, Num;
    AccountedInit(maxBytes);
    forall t
      ensures Tidy(Init(maxBytes), t)
    {
      NothingTold(Resolutions(t));
    }
  }

  /** Serial order.  An agent that was always serial, had no entry dropped and
      met no store failure or purge starts its handlers in increasing stream
      order, through any redelivery, lost ack and crash: the only start that can
      come after a later message's start is one of a message the server has
      meanwhile been told to terminate, or has expired. */
  lemma SerialAgentsStartInOrder(s: State, a: AgentId, i: nat, j: nat)
    requires Reachable(s) && Undisturbed(s.log, a)
    requires i < j < |s.log| && s.log[i].HandlerStarted? && s.log[j].HandlerStarted?
    requires s.log[i].key.agent == a == s.log[j].key.agent
    ensures s.log[i].seqNo <= s.log[j].seqNo
         || (s.log[j].seqNo in s.slots
             && (s.slots[s.log[j].seqNo].fate.Expired?
                 || (s.slots[s.log[j].seqNo].fate.Settled? && s.slots[s.log[j].seqNo].fate.how.Termed?)))
  {
    hide Apply, Enabled, Undisturbed, Accounted, InLine, Recorded, Tidy;
    var tr :| Legal(Init(s.maxBytes), tr) && After(Init(s.maxBytes), tr) == s;
    SerialInit(s.maxBytes, a);
    SerialRun(Init(s.maxBytes), tr, a);
    if s.log[j].seqNo < s.log[i].seqNo {
      assert Overtaken(s.log, i, j, a);
    }
  }
}
