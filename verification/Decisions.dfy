/** What a handler's start, and a lookup that hits, say of a run. */
module Decisions {
  import opened Common
  import opened Protocol
  import opened Counting
  import opened Invariants
  import opened NoLoss

  predicate Begun(pc: Pc) {
    pc.Running? || pc.Exited? || pc.Marked? || pc.Resolving? || pc.Releasing? || pc.Done?
  }

  /** A start in the history is of a task that has begun, for its message and event. */
  ghost predicate StartsKept(s: State) {
    forall o :: o in s.log && o.HandlerStarted? ==>
      && o.task in s.tasks && Begun(s.tasks[o.task].pc)
      && s.tasks[o.task].seqNo == o.seqNo && s.tasks[o.task].Id() == o.key
  }

  lemma SpawnTold(s: State, a: Action, o: Obs)
    requires Enabled(s, a) && o in Emits(s, a) && o.HandlerStarted?
    ensures a == Spawn(o.task, true) && At(s, o.task, Inserted)
    ensures s.tasks[o.task].seqNo == o.seqNo && s.tasks[o.task].Id() == o.key
  {
  }

  lemma ActorBegun(s: State, a: Action)
    requires Enabled(s, a) && a.IsTaskStep()
    ensures a.task in s.tasks
    ensures Begun(s.tasks[a.task].pc) || a == Spawn(a.task, true) ==> Begun(TaskAfter(s, a).pc)
  {
  }

  /** A task that has begun, or is now spawned, stays begun, with its message. */
  lemma BegunStays(s: State, a: Action, t: TaskId)
    requires Enabled(s, a) && t in s.tasks && (Begun(s.tasks[t].pc) || a == Spawn(t, true))
    ensures t in Apply(s, a).tasks && Begun(Apply(s, a).tasks[t].pc)
    ensures Apply(s, a).tasks[t].seqNo == s.tasks[t].seqNo && Apply(s, a).tasks[t].Id() == s.tasks[t].Id()
  {
    hide Apply, Enabled, TaskAfter;
    TaskStays(s, a, t);
    if a.IsTaskStep() && a.task == t {
      ActorBegun(s, a);
    }
  }

  /** Tasks are never forgotten, and keep their message. */
  lemma TaskStays(s: State, a: Action, t: TaskId)
    requires Enabled(s, a) && t in s.tasks
    ensures t in Apply(s, a).tasks
    ensures Apply(s, a).tasks[t].seqNo == s.tasks[t].seqNo && Apply(s, a).tasks[t].Id() == s.tasks[t].Id()
    ensures a.IsTaskStep() && a.task == t ==> Apply(s, a).tasks[t] == TaskAfter(s, a)
    ensures !(a.IsTaskStep() && a.task == t) && !a.Crash? ==> Apply(s, a).tasks[t] == s.tasks[t]
    ensures a.Crash? ==> Apply(s, a).tasks[t] == Killed(s.tasks[t])
  {
    hide Apply, Enabled, TaskAfter;
    if a.Crash? {
      CrashFrame(s);
    } else {
      StepFrame(s, a);
      if a.IsTaskStep() {
        ActorMoves(s, a);
      }
    }
  }

  lemma StartsKeptStep(s: State, a: Action)
    requires StartsKept(s) && Enabled(s, a)
    ensures StartsKept(Apply(s, a))
  {
    hide Apply, Enabled, Emits, TaskAfter;
    LogGrows(s, a);
    forall o | o in Apply(s, a).log && o.HandlerStarted?
      ensures o.task in Apply(s, a).tasks && Begun(Apply(s, a).tasks[o.task].pc)
      ensures Apply(s, a).tasks[o.task].seqNo == o.seqNo && Apply(s, a).tasks[o.task].Id() == o.key
    {
      if o !in s.log {
        SpawnTold(s, a, o);
      }
      BegunStays(s, a, o.task);
    }
  }

  lemma {:induction false} StartsKeptRun(s: State, tr: seq<Action>)
    requires StartsKept(s) && Legal(s, tr)
    ensures StartsKept(After(s, tr))
    decreases |tr|
  {
    hide Apply, Enabled, StartsKept;
    if tr != [] {
      StartsKeptStep(s, tr[0]);
      StartsKeptRun(Apply(s, tr[0]), tr[1..]);
    }
  }

  // ---- a start comes from a check that passed ------------------------------

  /** Past the gates, or told to have started. */
  ghost predicate Admitted(s: State, t: TaskId) {
    || (t in s.tasks && (s.tasks[t].pc.Checked? || s.tasks[t].pc.Waiting? || s.tasks[t].pc.Permitted?
                         || s.tasks[t].pc.Armed? || s.tasks[t].pc.Inserted?))
    || (exists o :: o in s.log && o.HandlerStarted? && o.task == t)
  }

  /** The check of this task, for a message that passes every gate. */
  ghost predicate PassedAt(s: State, a: Action, t: TaskId) {
    && a == Check(t) && t in s.tasks && s.tasks[t].seqNo in s.slots
    && Passes(s.slots[s.tasks[t].seqNo].msg, s.maxBytes, s.registry)
    && s.tasks[t].Id() == KeyOf(s.slots[s.tasks[t].seqNo].msg)
  }

  lemma ActorAdmitted(s: State, a: Action)
    requires Wired(s) && Enabled(s, a) && a.IsTaskStep()
    ensures var pc, pc' := s.tasks[a.task].pc, TaskAfter(s, a).pc;
      pc'.Checked? || pc'.Waiting? || pc'.Permitted? || pc'.Armed? || pc'.Inserted? ==>
        || pc.Checked? || pc.Waiting? || pc.Permitted? || pc.Armed? || pc.Inserted?
        || PassedAt(s, a, a.task)
  {
    WiredAt(s, a.task);
  }

  lemma AdmittedStep(s: State, a: Action, t: TaskId)
    requires Wired(s) && Enabled(s, a) && !Admitted(s, t) && Admitted(Apply(s, a), t)
    ensures PassedAt(s, a, t)
  {
    hide Apply, Enabled, Emits, TaskAfter, Wired, PassedAt;
    LogGrows(s, a);
    if o :| o in Apply(s, a).log && o.HandlerStarted? && o.task == t {
      assert o in Emits(s, a);
      SpawnTold(s, a, o);
    } else {
      TaskCases(s, a, t);
      if a.IsTaskStep() && a.task == t {
        ActorAdmitted(s, a);
      }
    }
  }

  lemma {:induction false} AdmittedRun(s: State, tr: seq<Action>, t: TaskId) returns (i: nat)
    requires Sound(s) && Legal(s, tr) && !Admitted(s, t) && Admitted(After(s, tr), t)
    ensures i < |tr| && Legal(s, tr[..i]) && PassedAt(After(s, tr[..i]), tr[i], t)
    decreases |tr|
  {
    hide Apply, Enabled, Admitted, PassedAt;
    var s1, rest := Apply(s, tr[0]), tr[1..];
    SoundStep(s, tr[0]);
    if Admitted(s1, t) {
      assert Wired(s);
      AdmittedStep(s, tr[0], t);
      i := 0;
      assert tr[..0] == [] && After(s, tr[..0]) == s;
    } else {
      var j := AdmittedRun(s1, rest, t);
      i := j + 1;
      assert tr[..i][1..] == rest[..j];
      assert Legal(s, tr[..i]) && After(s, tr[..i]) == After(s1, rest[..j]);
    }
  }

  lemma {:induction false} TaskKept(s: State, tr: seq<Action>, t: TaskId)
    requires Legal(s, tr) && t in s.tasks
    ensures t in After(s, tr).tasks && After(s, tr).tasks[t].seqNo == s.tasks[t].seqNo
    ensures After(s, tr).tasks[t].Id() == s.tasks[t].Id()
    decreases |tr|
  {
    hide Apply, Enabled;
    if tr != [] {
      TaskStays(s, tr[0], t);
      TaskKept(Apply(s, tr[0]), tr[1..], t);
    }
  }

  /** A handler starts only for a message that its task had and that was within the
      size limit, a valid envelope for its own agent, and that agent registered and
      enabled, at one step of the run: the task's check. */
  lemma StartedHadPassed(maxBytes: nat, tr: seq<Action>, k: Key, q: nat, t: TaskId)
    requires Legal(Init(maxBytes), tr) && HandlerStarted(k, q, t) in After(Init(maxBytes), tr).log
    ensures exists i: nat ::
      && i < |tr| && Legal(Init(maxBytes), tr[..i]) && tr[i] == Check(t)
      && var s := After(Init(maxBytes), tr[..i]);
         && t in s.tasks && s.tasks[t].seqNo == q && q in s.slots
         && var m := s.slots[q].msg;
            && KeyOf(m) == k && m.size <= maxBytes && m.envelope.Some? && m.envelope.value.agent == m.dest
            && m.dest in s.registry && s.registry[m.dest].enabled
  {
    hide Legal, After;
    var s0 := Init(maxBytes);
    WiredInit(maxBytes);
    StartsKeptRun(s0, tr);
    var i := AdmittedRun(s0, tr, t);
    RunKeepsMaxBytes(s0, tr[..i]);
    Rejoin(s0, tr, i);
    TaskKept(After(s0, tr[..i]), tr[i..], t);
  }

  lemma {:induction false} Rejoin(s: State, tr: seq<Action>, i: nat)
    requires Legal(s, tr) && i <= |tr| && Legal(s, tr[..i])
    ensures Legal(After(s, tr[..i]), tr[i..]) && After(After(s, tr[..i]), tr[i..]) == After(s, tr)
    decreases i
  {
    hide Apply, Enabled;
    if i == 0 {
      assert tr[..0] == [] && tr[0..] == tr;
    } else {
      assert tr[..i][1..] == tr[1..][..i - 1] && tr[1..][i - 1..] == tr[i..] && tr[..i][0] == tr[0];
      Rejoin(Apply(s, tr[0]), tr[1..], i - 1);
    }
  }

  // ---- a hit is acked and never run ----------------------------------------

  /** On its way out with an ack, or lost to a crash, and never started. */
  ghost predicate Spared(s: State, t: TaskId) {
    && t in s.tasks
    && (|| (s.tasks[t].outcome == Acked && (s.tasks[t].pc.Resolving? || s.tasks[t].pc.Releasing? || s.tasks[t].pc.Done?))
        || (s.tasks[t].outcome == Lost && s.tasks[t].pc.Done?))
    && forall o :: o in s.log && o.HandlerStarted? ==> o.task != t
  }

  lemma ActorSpared(s: State, a: Action)
    requires Enabled(s, a) && a.IsTaskStep() && Spared(s, a.task)
    ensures TaskAfter(s, a).outcome == Acked && (TaskAfter(s, a).pc.Releasing? || TaskAfter(s, a).pc.Done?)
  {
  }

  lemma SparedStep(s: State, a: Action, t: TaskId)
    requires Spared(s, t) && Enabled(s, a)
    ensures Spared(Apply(s, a), t)
  {
    hide Apply, Enabled, Emits, TaskAfter;
    TaskStays(s, a, t);
    if a.IsTaskStep() && a.task == t {
      ActorSpared(s, a);
    }
    LogGrows(s, a);
    forall o | o in Apply(s, a).log && o.HandlerStarted?
      ensures o.task != t
    {
      if o !in s.log {
        SpawnTold(s, a, o);
      }
    }
  }

  lemma {:induction false} SparedRun(s: State, tr: seq<Action>, t: TaskId)
    requires Spared(s, t) && Legal(s, tr)
    ensures Spared(After(s, tr), t)
    decreases |tr|
  {
    hide Apply, Enabled, Spared;
    if tr != [] {
      SparedStep(s, tr[0], t);
      SparedRun(Apply(s, tr[0]), tr[1..], t);
    }
  }

  lemma HitSpares(s: State, t: TaskId)
    requires StartsKept(s) && Enabled(s, Lookup(t, true)) && s.tasks[t].Id() in s.completed
    ensures Spared(Apply(s, Lookup(t, true)), t)
  {
    LogGrows(s, Lookup(t, true));
  }

  /** Once the store has said "completed" to a task, the task never starts a handler,
      and it ends with an ack unless it is lost in a crash. */
  lemma HitNeverRuns(s: State, t: TaskId, tr: seq<Action>)
    requires Reachable(s) && At(s, t, Permitted) && s.tasks[t].Id() in s.completed
    requires Enabled(s, Lookup(t, true)) && Legal(Apply(s, Lookup(t, true)), tr)
    ensures var s' := After(Apply(s, Lookup(t, true)), tr);
      && (forall k, q :: HandlerStarted(k, q, t) !in s'.log)
      && t in s'.tasks && (s'.tasks[t].pc == Done ==> s'.tasks[t].outcome == Acked || s'.tasks[t].outcome == Lost)
      && (s'.tasks[t].pc != Done ==> s'.tasks[t].outcome == Acked)
  {
    hide Apply, Enabled, StartsKept;
    var before :| Legal(Init(s.maxBytes), before) && After(Init(s.maxBytes), before) == s;
    assert StartsKept(Init(s.maxBytes)) by { NoStarts(s.maxBytes); }
    StartsKeptRun(Init(s.maxBytes), before);
    HitSpares(s, t);
    SparedRun(Apply(s, Lookup(t, true)), tr, t);
  }

  lemma NoStarts(maxBytes: nat)
    ensures StartsKept(Init(maxBytes))
  {
  }
}
