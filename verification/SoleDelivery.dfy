/** What the code gives when the server does not hand out an event that is held. */
module SoleDelivery {
  import opened Common
  import opened Protocol
  import opened Counting
  import opened EffectivelyOnce
  import opened NoLoss

  /** Every task of the event has ended. */
  ghost predicate NobodyOn(s: State, k: Key) { forall t :: !IsOn(s, t, k) }

  /** No delivery of the event along the run finds an unfinished task of it. */
  ghost predicate SoleDeliveries(s: State, tr: seq<Action>, k: Key)
    requires Legal(s, tr)
    decreases |tr|
  {
    tr == [] ||
    ((tr[0].Deliver? && tr[0].seqNo in s.slots && KeyOf(s.slots[tr[0].seqNo].msg) == k ==> NobodyOn(s, k))
     && SoleDeliveries(Apply(s, tr[0]), tr[1..], k))
  }

  predicate IsOn(s: State, t: TaskId, k: Key) { t in s.tasks && s.tasks[t].Id() == k && s.tasks[t].pc != Done }

  ghost predicate Alone(s: State, k: Key) {
    forall t, u :: IsOn(s, t, k) && IsOn(s, u, k) ==> t == u
  }

  function Faults(log: seq<Obs>, k: Key): nat {
    Tally(log, FailedLookups(k)) + Tally(log, FailedMarks(k)) + Tally(log, Restarts) + Tally(log, Purges(k))
  }

  ghost predicate OneRun(s: State, k: Key) {
    if k in s.completed
    then Of(s, Starts(k)) + Num(s.tasks, BeforeStart(k)) <= 1 + Faults(s.log, k)
    else Of(s, Starts(k)) <= Num(s.tasks, Unrecorded(k)) + Faults(s.log, k)
  }

  lemma AloneStep(s: State, a: Action, k: Key)
    requires Alone(s, k) && Enabled(s, a)
    requires a.Deliver? && a.seqNo in s.slots && KeyOf(s.slots[a.seqNo].msg) == k ==> NobodyOn(s, k)
    ensures Alone(Apply(s, a), k)
  {
    hide Apply, Enabled;
    var s' := Apply(s, a);
    forall t, u | IsOn(s', t, k) && IsOn(s', u, k)
      ensures t == u
    {
      CameFrom(s, a, t, k);
      CameFrom(s, a, u, k);
    }
  }

  /** An unfinished task was one before, of the same event, or was just delivered. */
  lemma CameFrom(s: State, a: Action, t: TaskId, k: Key)
    requires Enabled(s, a) && IsOn(Apply(s, a), t, k)
    ensures IsOn(s, t, k) ||
      (a.Deliver? && a.task == t && t !in s.tasks && a.seqNo in s.slots && KeyOf(s.slots[a.seqNo].msg) == k)
  {
    hide Apply, Enabled, TaskAfter;
    TaskCases(s, a, t);
    if a.IsTaskStep() && a.task == t {
      ActorMoves(s, a);
      ActorUnfinished(s, a);
    }
  }

  lemma ActorUnfinished(s: State, a: Action)
    requires Enabled(s, a) && a.IsTaskStep()
    ensures a.task in s.tasks && s.tasks[a.task].pc != Done
  {
  }

  lemma AtMostOne(s: State, k: Key, q: Query)
    requires Alone(s, k) && (q == BeforeStart(k) || q == Unrecorded(k))
    ensures Num(s.tasks, q) <= 1
  {
    if t :| t in Sel(s.tasks, q) {
      assert forall u :: u in Sel(s.tasks, q) ==> IsOn(s, u, k);
      assert Sel(s.tasks, q) == {t};
    } else {
      assert Sel(s.tasks, q) == {};
    }
  }

  /** Nobody stands before its start beside a task that records the event. */
  lemma MarksAlone(s: State, a: Action, k: Key)
    requires Alone(s, k) && Enabled(s, a) && a.Mark? && s.tasks[a.task].Id() == k
    ensures Num(s.tasks, BeforeStart(k)) == 0
  {
    assert IsOn(s, a.task, k) && s.tasks[a.task].pc == Exited;
    forall t | t in s.tasks
      ensures !Fits(BeforeStart(k), s.tasks[t])
    {
      assert Fits(BeforeStart(k), s.tasks[t]) ==> IsOn(s, t, k);
    }
    NumNone(s.tasks, BeforeStart(k));
  }

  lemma FaultsStep(s: State, a: Action, k: Key)
    requires Enabled(s, a)
    ensures var mine := a.IsTaskStep() && a.task in s.tasks && s.tasks[a.task].Id() == k;
      Faults(Apply(s, a).log, k) == Faults(s.log, k) + Bit(mine && a.Lookup? && !a.ok) + Bit(mine && a.Mark? && !a.ok)
                                    + Bit(a.Crash?) + Bit(a == Purge(k))
  {
    hide Apply, Tally;
    TallyStep(s, a, FailedLookups(k));
    TallyStep(s, a, FailedMarks(k));
    TallyStep(s, a, Restarts);
    TallyStep(s, a, Purges(k));
  }

  lemma OneRunStep(s: State, a: Action, k: Key)
    requires Alone(s, k) && OneRun(s, k) && Enabled(s, a)
    ensures OneRun(Apply(s, a), k)
  {
    hide Apply, Enabled, Num, Of, Faults, Charged, Alone;
    ChargeStep(s, a, k);
    FaultsStep(s, a, k);
    CompletedStep(s, a, k);
    AtMostOne(s, k, Unrecorded(k));
    if a.Crash? {
      NumStep(s, a, BeforeStart(k));
      NumStep(s, a, Unrecorded(k));
    } else {
      PhaseStep(s, a, k);
      if a.IsTaskStep() {
        ActorUnfinished(s, a);
      }
      if a.Mark? && s.tasks[a.task].Id() == k {
        MarksAlone(s, a, k);
      }
    }
  }

  lemma {:induction false} SoleRun(s: State, tr: seq<Action>, k: Key)
    requires Alone(s, k) && OneRun(s, k) && Legal(s, tr) && SoleDeliveries(s, tr, k)
    ensures Alone(After(s, tr), k) && OneRun(After(s, tr), k)
    decreases |tr|
  {
    hide Apply, Enabled, Alone, OneRun, NobodyOn;
    if tr != [] {
      AloneStep(s, tr[0], k);
      OneRunStep(s, tr[0], k);
      SoleRun(Apply(s, tr[0]), tr[1..], k);
    }
  }

  /** One run of an event, and one more for each failed lookup, failed mark, crash and
      purge of its own, whatever the concurrency and the changes, when no delivery of
      the event finds an unfinished task of it. */
  lemma OneRunPerFault(maxBytes: nat, tr: seq<Action>, k: Key)
    requires Legal(Init(maxBytes), tr) && SoleDeliveries(Init(maxBytes), tr, k)
    ensures var log := After(Init(maxBytes), tr).log;
      Tally(log, Starts(k)) <= 1 + Tally(log, FailedLookups(k)) + Tally(log, FailedMarks(k)) + Tally(log, Restarts)
                               + Tally(log, Purges(k))
  {
    hide Legal, After, SoleDeliveries;
    NumNone(Init(maxBytes).tasks, Unrecorded(k));
    assert OneRun(Init(maxBytes), k);
    SoleRun(Init(maxBytes), tr, k);
    AtMostOne(After(Init(maxBytes), tr), k, Unrecorded(k));
  }
}
