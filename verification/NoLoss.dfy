/** No event is lost silently: what an ack, a term and a dispatch's end imply. */
module NoLoss {
  import opened Common
  import opened Protocol
  import opened Steps
  import opened Counting
  import opened Invariants

  function KeyOf(m: Message): Key { Key(m.dest, EventOf(m)) }

  predicate Waited(s: State, k: Key) { Tally(s.log, Exits(k)) >= 1 }

  /** A recorded completion, or an ack decided or sent, comes after a handler run
      of the event was waited for. */
  ghost predicate Honest(s: State) {
    && (forall k :: k in s.completed ==> Waited(s, k))
    && (forall t :: t in s.tasks ==> HonestTask(s, s.tasks[t]))
    && (forall q :: q in s.slots && s.slots[q].fate == Settled(Acked) ==> Waited(s, KeyOf(s.slots[q].msg)))
  }

  predicate HonestTask(s: State, k: Task) {
    && (k.pc == Exited || k.pc == Marked || k.outcome == Acked ==> Waited(s, k.Id()))
  }

  lemma WaitedStep(s: State, a: Action, k: Key)
    requires Enabled(s, a)
    ensures Waited(s, k) || (a.Exit? && s.tasks[a.task].Id() == k) ==> Waited(Apply(s, a), k)
  {
    hide Apply, Tally;
    TallyStep(s, a, Exits(k));
  }

  lemma ActorHonest(s: State, a: Action)
    requires Honest(s) && Enabled(s, a) && a.IsTaskStep()
    ensures var k' := TaskAfter(s, a);
      k'.pc == Exited || k'.pc == Marked || k'.outcome == Acked ==> a.Exit? || Waited(s, s.tasks[a.task].Id())
  {
    hide Waited;
    assert HonestTask(s, s.tasks[a.task]);
  }

  lemma HonestTaskStep(s: State, a: Action, t: TaskId)
    requires Honest(s) && Enabled(s, a) && t in Apply(s, a).tasks
    ensures HonestTask(Apply(s, a), Apply(s, a).tasks[t])
  {
    hide Apply, Enabled, TaskAfter, Waited;
    TaskCases(s, a, t);
    if a.IsTaskStep() && a.task == t {
      ActorHonest(s, a);
      ActorMoves(s, a);
    }
    WaitedStep(s, a, Apply(s, a).tasks[t].Id());
  }

  /** A fate changes only by delivery, expiry, or an ack or term that arrives. */
  lemma FateStep(s: State, a: Action, q: nat)
    requires Enabled(s, a) && q in Apply(s, a).slots
    ensures q in s.slots ==>
      && Apply(s, a).slots[q].msg == s.slots[q].msg
      && Apply(s, a).slots[q].fate == (
           if a.Expire? && a.seqNo == q then Expired
           else if a.Deliver? && a.seqNo == q then Pending
           else if a.Resolve? && a.arrived && s.tasks[a.task].seqNo == q && s.slots[q].fate == Pending
           then Settled(s.tasks[a.task].outcome)
           else s.slots[q].fate)
    ensures q !in s.slots ==> a == Publish(q, Apply(s, a).slots[q].msg) && Apply(s, a).slots[q].fate == Queued
  {
    SlotsAre(s, a);
    hide Apply;
  }

  lemma HonestStep(s: State, a: Action)
    requires Wired(s) && Honest(s) && Enabled(s, a)
    ensures Honest(Apply(s, a))
  {
    var s' := Apply(s, a);
    hide Apply, Enabled, Waited;
    forall k | k in s'.completed
      ensures Waited(s', k)
    {
      MarkedWaited(s, a, k);
      WaitedStep(s, a, k);
    }
    forall t | t in s'.tasks
      ensures HonestTask(s', s'.tasks[t])
    {
      HonestTaskStep(s, a, t);
    }
    forall q | q in s'.slots && s'.slots[q].fate == Settled(Acked)
      ensures Waited(s', KeyOf(s'.slots[q].msg))
    {
      FateStep(s, a, q);
      if a.Resolve? {
        assert WiredTask(s, s.tasks[a.task]) && HonestTask(s, s.tasks[a.task]);
      }
      WaitedStep(s, a, KeyOf(s'.slots[q].msg));
    }
  }

  lemma MarkedWaited(s: State, a: Action, k: Key)
    requires Honest(s) && Enabled(s, a) && k in Apply(s, a).completed
    ensures Waited(s, k)
  {
    hide Waited;
    if k !in s.completed {
      assert a.Mark? && HonestTask(s, s.tasks[a.task]);
    }
  }

  lemma {:induction false} HonestRun(s: State, tr: seq<Action>)
    requires Sound(s) && Honest(s) && Legal(s, tr)
    ensures Honest(After(s, tr))
    decreases |tr|
  {
    hide Apply, Enabled, Honest;
    if tr != [] {
      assert Wired(s);
      HonestStep(s, tr[0]);
      SoundStep(s, tr[0]);
      HonestRun(Apply(s, tr[0]), tr[1..]);
    }
  }

  /** A message is acked only after a handler run of its event was waited for,
      whatever crashed, was purged or failed in between. */
  lemma AckedWasHandled(s: State, q: nat)
    requires Reachable(s) && q in s.slots && s.slots[q].fate == Settled(Acked)
    ensures Tally(s.log, Exits(Key(s.slots[q].msg.dest, EventOf(s.slots[q].msg)))) >= 1
  {
    var tr :| Legal(Init(s.maxBytes), tr) && After(Init(s.maxBytes), tr) == s;
    WiredInit(s.maxBytes);
    HonestRun(Init(s.maxBytes), tr);
  }

  // ---- terms ---------------------------------------------------------------

  /** The message is termed for this reason, or a task is about to. */
  ghost predicate Condemned(s: State, q: nat, r: Reason) {
    || (q in s.slots && s.slots[q].fate == Settled(Termed(r)))
    || (exists t :: t in s.tasks && s.tasks[t].seqNo == q && s.tasks[t].outcome == Termed(r))
  }

  /** The action is the gates' look at the message, by a task that has it, and this is
      what they say. */
  ghost predicate Gates(s: State, a: Action, q: nat, r: Reason) {
    && a.Check? && a.task in s.tasks && s.tasks[a.task].seqNo == q && s.tasks[a.task].pc == Received
    && q in s.slots && Verdict(s, s.slots[q].msg) == Termed(r)
  }

  ghost predicate GatesAt(s: State, tr: seq<Action>, i: nat, q: nat, r: Reason) {
    i < |tr| && Legal(s, tr[..i]) && Gates(After(s, tr[..i]), tr[i], q, r)
  }

  /** A task's term is old, or the gates decide it now, or its spawn had failed. */
  lemma TaskCondemned(s: State, a: Action, t: TaskId, r: Reason)
    requires Wired(s) && Enabled(s, a)
    requires t in Apply(s, a).tasks && Apply(s, a).tasks[t].outcome == Termed(r)
    ensures t in s.tasks && s.tasks[t].seqNo == Apply(s, a).tasks[t].seqNo && s.tasks[t].seqNo in s.slots
    ensures
      || s.tasks[t].outcome == Termed(r)
      || (r != Unspawnable && Gates(s, a, s.tasks[t].seqNo, r))
      || (r == Unspawnable && s.tasks[t].pc == SpawnFailed)
  {
    hide Apply, Enabled, TaskAfter, Verdict, Wired, EventOf;
    TaskCases(s, a, t);
    WiredAt(s, t);
    if a.IsTaskStep() && a.task == t {
      ActorCondemned(s, a, r);
    }
  }

  /** Where the acting task's term comes from. */
  lemma ActorCondemned(s: State, a: Action, r: Reason)
    requires Enabled(s, a) && a.IsTaskStep() && TaskAfter(s, a).outcome == Termed(r)
    ensures var k := s.tasks[a.task];
      && TaskAfter(s, a).seqNo == k.seqNo
      && (|| k.outcome == Termed(r)
          || (r != Unspawnable && Gates(s, a, k.seqNo, r))
          || (r == Unspawnable && k.pc == SpawnFailed))
  {
  }

  lemma ResolverIn(s: State, a: Action)
    requires Enabled(s, a) && a.Resolve?
    ensures a.task in s.tasks
  {
  }

  lemma CondemnedStep(s: State, a: Action, q: nat, r: Reason)
    requires Wired(s) && Enabled(s, a) && Condemned(Apply(s, a), q, r)
    ensures q in s.slots && q in Apply(s, a).slots && Apply(s, a).slots[q].msg == s.slots[q].msg
    ensures
      || Condemned(s, q, r)
      || (r != Unspawnable && Gates(s, a, q, r))
      || (r == Unspawnable && exists t :: At(s, t, SpawnFailed) && s.tasks[t].seqNo == q)
  {
    hide Apply, Enabled, Verdict, Gates, Wired;
    var s' := Apply(s, a);
    if q in s'.slots && s'.slots[q].fate == Settled(Termed(r)) {
      FateStep(s, a, q);
      if a.Resolve? {
        ResolverIn(s, a);
      }
    } else {
      var t :| t in s'.tasks && s'.tasks[t].seqNo == q && s'.tasks[t].outcome == Termed(r);
      TaskCondemned(s, a, t, r);
      SlotsStep(s, a, q);
    }
  }

  lemma {:induction false} MessageKept(s: State, tr: seq<Action>, q: nat)
    requires Legal(s, tr) && q in s.slots
    ensures q in After(s, tr).slots && After(s, tr).slots[q].msg == s.slots[q].msg
    decreases |tr|
  {
    hide Apply, Enabled;
    if tr != [] {
      SlotsStep(s, tr[0], q);
      MessageKept(Apply(s, tr[0]), tr[1..], q);
    }
  }

  lemma {:induction false} CondemnedRun(s: State, tr: seq<Action>, q: nat, r: Reason) returns (i: nat)
    requires Sound(s) && Legal(s, tr) && r != Unspawnable
    requires !Condemned(s, q, r) && Condemned(After(s, tr), q, r)
    ensures GatesAt(s, tr, i, q, r)
    decreases |tr|
  {
    hide Apply, Enabled, Verdict, Condemned, Gates;
    var s1, rest := Apply(s, tr[0]), tr[1..];
    SoundStep(s, tr[0]);
    if Condemned(s1, q, r) {
      assert Wired(s);
      CondemnedStep(s, tr[0], q, r);
      i := 0;
      assert tr[..0] == [] && After(s, tr[..0]) == s;
    } else {
      var j := CondemnedRun(s1, rest, q, r);
      i := j + 1;
      assert tr[..i][1..] == rest[..j];
      assert Legal(s, tr[..i]) && After(s, tr[..i]) == After(s1, rest[..j]);
    }
  }

  /** A message is termed as oversize, invalid, mismatched, unregistered or disabled
      only if that is what the gates said when a task that had it stood before them. */
  lemma TermedHadCause(maxBytes: nat, tr: seq<Action>, q: nat, r: Reason)
    requires Legal(Init(maxBytes), tr) && r != Unspawnable
    requires q in After(Init(maxBytes), tr).slots
    requires After(Init(maxBytes), tr).slots[q].fate == Settled(Termed(r))
    ensures exists i: nat, t: TaskId ::
      && i < |tr| && Legal(Init(maxBytes), tr[..i]) && tr[i] == Check(t)
      && var s := After(Init(maxBytes), tr[..i]);
         && t in s.tasks && s.tasks[t].seqNo == q && q in s.slots
         && var m := s.slots[q].msg;
            match r
            case Oversize => m.size > maxBytes
            case Invalid => m.envelope.None?
            case Mismatch => m.envelope.Some? && m.envelope.value.agent != m.dest
            case Unregistered => m.dest !in s.registry
            case Disabled => m.dest in s.registry && !s.registry[m.dest].enabled
            case Unspawnable => false
  {
    hide Verdict, Legal, After;
    WiredInit(maxBytes);
    var i := CondemnedRun(Init(maxBytes), tr, q, r);
    RunKeepsMaxBytes(Init(maxBytes), tr[..i]);
    var s := After(Init(maxBytes), tr[..i]);
    VerdictSays(s, s.slots[q].msg);
    assert tr[i] == Check(tr[i].task);
  }

  /** The verdict of the gates, by what they compare. */
  lemma VerdictSays(s: State, m: Message)
    ensures Verdict(s, m) == Undecided <==> Passes(m, s.maxBytes, s.registry)
    ensures forall r :: Verdict(s, m) == Termed(r) <==> Cause(r, m, s.maxBytes, s.registry)
  {
  }

  /** And as unspawnable only after a spawn of its handler failed. */
  ghost predicate SpawnsLogged(s: State) {
    forall t :: t in s.tasks && (s.tasks[t].pc == SpawnFailed || s.tasks[t].outcome == Termed(Unspawnable)) ==>
      Tally(s.log, SpawnFailures(s.tasks[t].agent, s.tasks[t].seqNo)) >= 1
  }

  lemma ActorSpawn(s: State, a: Action)
    requires Enabled(s, a) && a.IsTaskStep()
    ensures var k, k' := s.tasks[a.task], TaskAfter(s, a);
      && (k'.pc == SpawnFailed ==> a == Spawn(a.task, false))
      && (k'.outcome == Termed(Unspawnable) ==> k.outcome == Termed(Unspawnable) || k.pc == SpawnFailed)
  {
  }

  lemma SpawnLogged(s: State, a: Action, t: TaskId)
    requires Enabled(s, a) && t in Apply(s, a).tasks && SpawnsLogged(s)
    requires Apply(s, a).tasks[t].pc == SpawnFailed || Apply(s, a).tasks[t].outcome == Termed(Unspawnable)
    ensures Tally(Apply(s, a).log, SpawnFailures(Apply(s, a).tasks[t].agent, Apply(s, a).tasks[t].seqNo)) >= 1
  {
    hide Apply, Enabled, TaskAfter, Tally;
    var k := Apply(s, a).tasks[t];
    TallyStep(s, a, SpawnFailures(k.agent, k.seqNo));
    TaskCases(s, a, t);
    if a.IsTaskStep() && a.task == t {
      ActorSpawn(s, a);
      ActorMoves(s, a);
    }
  }

  lemma SpawnsLoggedStep(s: State, a: Action)
    requires SpawnsLogged(s) && Enabled(s, a)
    ensures SpawnsLogged(Apply(s, a))
  {
    var s' := Apply(s, a);
    hide Apply, Enabled, Tally;
    forall t | t in s'.tasks && (s'.tasks[t].pc == SpawnFailed || s'.tasks[t].outcome == Termed(Unspawnable))
      ensures Tally(s'.log, SpawnFailures(s'.tasks[t].agent, s'.tasks[t].seqNo)) >= 1
    {
      SpawnLogged(s, a, t);
    }
  }

  lemma {:induction false} UnspawnableRun(s: State, tr: seq<Action>, q: nat)
    requires Sound(s) && SpawnsLogged(s) && Legal(s, tr)
    requires Condemned(s, q, Unspawnable) ==>
               q in s.slots && Tally(s.log, SpawnFailures(s.slots[q].msg.dest, q)) >= 1
    ensures Condemned(After(s, tr), q, Unspawnable) ==>
      && q in After(s, tr).slots
      && Tally(After(s, tr).log, SpawnFailures(After(s, tr).slots[q].msg.dest, q)) >= 1
    decreases |tr|
  {
    hide Apply, Enabled, Verdict, Condemned, Tally, SpawnsLogged;
    if tr != [] {
      var a, s1 := tr[0], Apply(s, tr[0]);
      SoundStep(s, a);
      SpawnsLoggedStep(s, a);
      if Condemned(s1, q, Unspawnable) {
        CondemnedStep(s, a, q, Unspawnable);
        SpawnFailureKnown(s, q);
        TallyStep(s, a, SpawnFailures(s.slots[q].msg.dest, q));
      }
      UnspawnableRun(s1, tr[1..], q);
    }
  }

  lemma SpawnFailureKnown(s: State, q: nat)
    requires Sound(s) && SpawnsLogged(s) && q in s.slots
    ensures (exists t :: At(s, t, SpawnFailed) && s.tasks[t].seqNo == q) ==>
              Tally(s.log, SpawnFailures(s.slots[q].msg.dest, q)) >= 1
  {
    if t :| At(s, t, SpawnFailed) && s.tasks[t].seqNo == q {
      assert WiredTask(s, s.tasks[t]);
    }
  }

  lemma UnspawnableHadFailure(s: State, q: nat)
    requires Reachable(s) && q in s.slots && s.slots[q].fate == Settled(Termed(Unspawnable))
    ensures Tally(s.log, SpawnFailures(s.slots[q].msg.dest, q)) >= 1
  {
    hide Apply, Enabled, Tally;
    var tr :| Legal(Init(s.maxBytes), tr) && After(Init(s.maxBytes), tr) == s;
    WiredInit(s.maxBytes);
    UnspawnableRun(Init(s.maxBytes), tr, q);
  }

  // ---- each dispatch ends once ---------------------------------------------

  /** The outcome a task carries fits where it stands, and the acker was called,
      or the copy dropped, exactly when it is past that point. */
  ghost predicate Tidy(s: State, t: TaskId) {
    if t !in s.tasks then Tally(s.log, Resolutions(t)) == 0
    else
      var k := s.tasks[t];
      && Tally(s.log, Resolutions(t)) <= 1
      && (!k.pc.Releasing? && !k.pc.Done? ==> Tally(s.log, Resolutions(t)) == 0)
      && (k.outcome.Undecided? <==>
            !k.pc.Rejecting? && !k.pc.Resolving? && !k.pc.Releasing? && !k.pc.Done?)
      && (k.pc.Rejecting? ==> k.outcome.Termed?)
      && (k.pc.Resolving? ==> k.outcome.Acked? || k.outcome.Termed?)
      && (k.outcome.Lost? ==> k.pc.Done?)
      && (k.pc.Releasing? || (k.pc.Done? && !k.outcome.Lost?) ==> Resolved(k.agent, t, k.outcome) in s.log && Tally(s.log, Resolutions(t)) == 1)
  }

  /** The acting task's own ending, step by step. */
  lemma ActorTidy(s: State, a: Action)
    requires Enabled(s, a) && a.IsTaskStep()
    ensures var k, k', e := s.tasks[a.task], TaskAfter(s, a), Emits(s, a);
      && (forall o :: o in e && o.Resolved? ==> o == Resolved(k'.agent, a.task, k'.outcome))
      && (e != [] && e[0].Resolved? <==> k'.pc.Releasing? || a.Resolve?)
      && (k'.pc.Done? && !a.Resolve? ==> a.Release? && k.pc.Releasing?)
      && (a.Resolve? ==> (k'.pc.Done? || k'.pc.Releasing?) && (k.pc.Rejecting? || k.pc.Resolving?))
      && (a.Release? || a.Resolve? ==> k'.outcome == k.outcome)
      && (k'.pc.Releasing? && !a.Resolve? ==> a.Insert? && k.pc.Armed? && k'.outcome.Dropped?)
      && (k'.pc.Rejecting? ==> a.Check? && k'.outcome.Termed?)
      && (k'.pc.Resolving? ==> (a.Lookup? || a.Remove?) && (k'.outcome.Acked? || k'.outcome.Termed?))
      && (!k'.pc.Releasing? && !k'.pc.Done? && !k'.pc.Rejecting? && !k'.pc.Resolving? ==>
            k'.outcome == k.outcome && !k.pc.Releasing? && !k.pc.Done? && !k.pc.Rejecting? && !k.pc.Resolving?)
      && !k.pc.Done? && (k.pc.Releasing? ==> a.Release?)
  {
  }

  lemma BystanderQuiet(s: State, a: Action, t: TaskId)
    requires Enabled(s, a) && !(a.IsTaskStep() && a.task == t)
    ensures forall o :: o in Emits(s, a) ==> !Says(o, Resolutions(t))
    ensures Emits(s, a) != [] ==> Emits(s, a)[0] in Emits(s, a)
  {
  }

  lemma TidyActor(s: State, a: Action)
    requires Enabled(s, a) && a.IsTaskStep() && Tidy(s, a.task)
    ensures Tidy(Apply(s, a), a.task)
  {
    hide Apply, Enabled, TaskAfter, Emits, Tally;
    TallyStep(s, a, Resolutions(a.task));
    LogGrows(s, a);
    StepFrame(s, a);
    ActorTidy(s, a);
    ActorMoves(s, a);
    var e := Emits(s, a);
    assert e != [] ==> e[0] in e;
  }

  lemma TidyStep(s: State, a: Action, t: TaskId)
    requires Tidy(s, t) && Enabled(s, a)
    ensures Tidy(Apply(s, a), t)
  {
    hide Apply, Enabled, TaskAfter, Emits, Tally;
    if a.IsTaskStep() && a.task == t {
      TidyActor(s, a);
    } else {
      TallyStep(s, a, Resolutions(t));
      LogGrows(s, a);
      BystanderQuiet(s, a, t);
      if a.Crash? {
        CrashFrame(s);
      } else {
        StepFrame(s, a);
      }
    }
  }

  lemma {:induction false} TidyRun(s: State, tr: seq<Action>, t: TaskId)
    requires Tidy(s, t) && Legal(s, tr)
    ensures Tidy(After(s, tr), t)
    decreases |tr|
  {
    hide Apply, Enabled, Tidy;
    if tr != [] {
      TidyStep(s, tr[0], t);
      TidyRun(Apply(s, tr[0]), tr[1..], t);
    }
  }

  /** Every dispatch calls its acker or drops its copy at most once; one that has
      ended and was not lost to a crash did so exactly once, with the outcome it
      ends in, and that outcome is an ack, a term or a drop. */
  lemma EndsExactlyOnce(s: State, t: TaskId)
    requires Reachable(s) && t in s.tasks
    ensures Tally(s.log, Resolutions(t)) <= 1
    ensures s.tasks[t].pc == Done && s.tasks[t].outcome != Lost ==>
      && Tally(s.log, Resolutions(t)) == 1
      && Resolved(s.tasks[t].agent, t, s.tasks[t].outcome) in s.log
      && (s.tasks[t].outcome.Acked? || s.tasks[t].outcome.Termed? || s.tasks[t].outcome.Dropped?)
    ensures s.tasks[t].pc != Done ==> s.tasks[t].outcome != Lost
  {
    hide Apply, Enabled, Tally;
    var tr :| Legal(Init(s.maxBytes), tr) && After(Init(s.maxBytes), tr) == s;
    assert Tidy(Init(s.maxBytes), t) by { assert Tally([], Resolutions(t)) == 0 by { NothingTold(Resolutions(t)); } }
    TidyRun(Init(s.maxBytes), tr, t);
  }

  lemma NothingTold(c: Counter)
    ensures Tally([], c) == 0
  {
  }

  /** The server settles a message by an ack or a term, never otherwise. */
  ghost predicate SettledProperly(s: State) {
    forall q :: q in s.slots && s.slots[q].fate.Settled? ==>
      s.slots[q].fate.how.Acked? || s.slots[q].fate.how.Termed?
  }

  lemma SettledProperlyStep(s: State, a: Action)
    requires SettledProperly(s) && Enabled(s, a) && (a.Resolve? ==> Tidy(s, a.task))
    ensures SettledProperly(Apply(s, a))
  {
    var s' := Apply(s, a);
    hide Apply, Tally;
    forall q | q in s'.slots && s'.slots[q].fate.Settled?
      ensures s'.slots[q].fate.how.Acked? || s'.slots[q].fate.how.Termed?
    {
      FateStep(s, a, q);
    }
  }

  lemma {:induction false} SettledProperlyRun(s: State, tr: seq<Action>)
    requires SettledProperly(s) && (forall t :: Tidy(s, t)) && Legal(s, tr)
    ensures SettledProperly(After(s, tr))
    decreases |tr|
  {
    hide Apply, Enabled, Tidy, SettledProperly;
    if tr != [] {
      SettledProperlyStep(s, tr[0]);
      forall t
        ensures Tidy(Apply(s, tr[0]), t)
      {
        TidyStep(s, tr[0], t);
      }
      SettledProperlyRun(Apply(s, tr[0]), tr[1..]);
    }
  }

  lemma ReachableSettledProperly(s: State)
    requires Reachable(s)
    ensures SettledProperly(s)
  {
    hide Apply, Enabled, Tally;
    var s0 := Init(s.maxBytes);
    var tr :| Legal(s0, tr) && After(s0, tr) == s;
    forall t
      ensures Tidy(s0, t)
    {
      NothingTold(Resolutions(t));
    }
    SettledProperlyRun(s0, tr);
  }
}
