/** From the lease of a held message to the number of handler runs. */
module LeasedDelivery {
  import opened Common
  import opened Protocol
  import opened Steps
  import opened Counting
  import opened Invariants
  import opened NoLoss
  import opened SoleDelivery
  import opened Configs
  import opened Leases

  // ---- no held message is handed out ---------------------------------------

  predicate Holding(s: State, t: TaskId, q: nat) { t in s.tasks && s.tasks[t].seqNo == q && s.tasks[t].pc != Done }

  /** No unfinished task has the message. */
  ghost predicate Unheld(s: State, q: nat) { forall t :: !Holding(s, t, q) }

  /** Along the run, no delivery hands out a message that an unfinished task has. */
  ghost predicate HeldStay(s: State, tr: seq<Action>)
    requires Legal(s, tr)
    decreases |tr|
  {
    tr == [] || ((tr[0].Deliver? ==> Unheld(s, tr[0].seqNo)) && HeldStay(Apply(s, tr[0]), tr[1..]))
  }

  /** The event's id belongs to one message. */
  ghost predicate OneMessage(s: State, k: Key) {
    forall p, q :: p in s.slots && q in s.slots && KeyOf(s.slots[p].msg) == k == KeyOf(s.slots[q].msg) ==> p == q
  }

  lemma OneMessageBefore(s: State, a: Action, k: Key)
    requires Enabled(s, a) && OneMessage(Apply(s, a), k)
    ensures OneMessage(s, k)
  {
    hide Apply, Enabled;
    forall p, q | p in s.slots && q in s.slots && KeyOf(s.slots[p].msg) == k == KeyOf(s.slots[q].msg)
      ensures p == q
    {
      SlotsStep(s, a, p);
      SlotsStep(s, a, q);
    }
  }

  lemma {:induction false} OneMessageAlong(s: State, tr: seq<Action>, k: Key)
    requires Legal(s, tr) && OneMessage(After(s, tr), k)
    ensures OneMessage(s, k)
    decreases |tr|
  {
    hide Apply, Enabled, OneMessage;
    if tr != [] {
      OneMessageAlong(Apply(s, tr[0]), tr[1..], k);
      OneMessageBefore(s, tr[0], k);
    }
  }

  lemma UnheldNobodyOn(s: State, q: nat, k: Key)
    requires Wired(s) && OneMessage(s, k) && q in s.slots && KeyOf(s.slots[q].msg) == k && Unheld(s, q)
    ensures NobodyOn(s, k)
  {
    forall t
      ensures !IsOn(s, t, k)
    {
      assert IsOn(s, t, k) ==> Holding(s, t, q) by {
        if IsOn(s, t, k) {
          WiredAt(s, t);
        }
      }
    }
  }

  /** When held messages stay and ids are not reused, deliveries of an event are sole. */
  lemma {:induction false} HeldStaySole(s: State, tr: seq<Action>, k: Key)
    requires Sound(s) && Legal(s, tr) && HeldStay(s, tr) && OneMessage(After(s, tr), k)
    ensures SoleDeliveries(s, tr, k)
    decreases |tr|
  {
    hide Apply, Enabled, OneMessage, NobodyOn, Unheld;
    if tr != [] {
      OneMessageAlong(s, tr, k);
      assert Wired(s);
      SoundStep(s, tr[0]);
      HeldStaySole(Apply(s, tr[0]), tr[1..], k);
      if tr[0].Deliver? && tr[0].seqNo in s.slots && KeyOf(s.slots[tr[0].seqNo].msg) == k {
        UnheldNobodyOn(s, tr[0].seqNo, k);
      }
    }
  }

  // ---- time ----------------------------------------------------------------

  /** An action, when it happens, and, of a delivery, the delays of the keepalive that
      its task will run. */
  datatype Timed = Timed(action: Action, at: real, lag: real, beats: seq<Beat>)

  /** The last delivery of a message: when, to which task, with what keepalive. */
  datatype Handout = Handout(at: real, task: TaskId, lag: real, beats: seq<Beat>)

  datatype Clock = Clock(interval: real, wait: real, delay: real)

  function Actions(tr: seq<Timed>): seq<Action> {
    if tr == [] then [] else [tr[0].action] + Actions(tr[1..])
  }

  function Recorded(out: map<nat, Handout>, x: Timed): map<nat, Handout> {
    if x.action.Deliver? then out[x.action.seqNo := Handout(x.at, x.action.task, x.lag, x.beats)] else out
  }

  /** The server hands a pending message out again only when the lease of its last
      delivery has run out. */
  ghost predicate ServerWaits(c: Clock, s: State, out: map<nat, Handout>, x: Timed) {
    x.action.Deliver? && x.action.seqNo in s.slots && s.slots[x.action.seqNo].fate == Pending && x.action.seqNo in out ==>
      var h := out[x.action.seqNo];
      !Leased(c.interval, h.lag, h.beats, c.wait, x.at - h.at)
  }

  /** The keepalive of an unfinished task has run until now, with delays within bounds. */
  ghost predicate KeepalivesRun(c: Clock, s: State, out: map<nat, Handout>, at: real) {
    forall q :: q in out && Holding(s, out[q].task, q) ==>
      0.0 <= at - out[q].at < Wake(c.interval, out[q].lag, out[q].beats, |out[q].beats|)
  }

  ghost predicate TimedRun(c: Clock, s: State, out: map<nat, Handout>, tr: seq<Timed>)
    requires Legal(s, Actions(tr))
    decreases |tr|
  {
    tr == [] ||
    (&& ServerWaits(c, s, out, tr[0]) && KeepalivesRun(c, s, out, tr[0].at)
     && (tr[0].action.Deliver? ==> Bounded(tr[0].lag, tr[0].beats, c.delay))
     && (HeadTail(tr); TimedRun(c, Apply(s, tr[0].action), Recorded(out, tr[0]), tr[1..])))
  }

  lemma HeadTail(tr: seq<Timed>)
    requires tr != []
    ensures Actions(tr)[0] == tr[0].action && Actions(tr)[1..] == Actions(tr[1..])
  {
  }

  /** Every unfinished task is of the last delivery of its message, and a message that
      was never delivered has no task. */
  ghost predicate Tracked(c: Clock, s: State, out: map<nat, Handout>) {
    && (forall q :: q in out ==> Bounded(out[q].lag, out[q].beats, c.delay))
    && (forall t, q :: Holding(s, t, q) ==> q in out && out[q].task == t)
    && (forall t, q :: Holding(s, t, q) ==> q in s.slots && s.slots[q].fate != Queued)
  }

  /** A delivery finds its message with nobody: the first one does, and before another
      the lease of an unfinished task has not run out. */
  lemma DeliversUnheld(c: Clock, s: State, out: map<nat, Handout>, x: Timed)
    requires c.interval >= 0.0 && c.interval + c.delay <= c.wait
    requires Tracked(c, s, out) && ServerWaits(c, s, out, x) && KeepalivesRun(c, s, out, x.at)
    requires Enabled(s, x.action) && x.action.Deliver?
    ensures Unheld(s, x.action.seqNo)
  {
    var q := x.action.seqNo;
    if t :| Holding(s, t, q) {
      var h := out[q];
      LeaseUpTo(c.interval, h.lag, h.beats, c.wait, c.delay, x.at - h.at, |h.beats|);
    }
  }

  /** Where an unfinished task comes from. */
  lemma HoldingBefore(s: State, a: Action, t: TaskId, q: nat)
    requires Enabled(s, a) && Holding(Apply(s, a), t, q)
    ensures Holding(s, t, q) || (a == Deliver(t, q) && t !in s.tasks)
  {
    hide Apply, Enabled, TaskAfter;
    TaskCases(s, a, t);
    if a.IsTaskStep() && a.task == t {
      ActorMoves(s, a);
      ActorUnfinished(s, a);
    }
  }

  lemma NotQueuedStays(s: State, a: Action, q: nat)
    requires Enabled(s, a) && q in s.slots && (s.slots[q].fate != Queued || (a.Deliver? && a.seqNo == q))
    ensures q in Apply(s, a).slots && Apply(s, a).slots[q].fate != Queued
  {
    SlotsStep(s, a, q);
    FateStep(s, a, q);
    hide Apply;
  }

  lemma TrackedStep(c: Clock, s: State, out: map<nat, Handout>, x: Timed)
    requires Tracked(c, s, out) && Enabled(s, x.action)
    requires x.action.Deliver? ==> Unheld(s, x.action.seqNo) && Bounded(x.lag, x.beats, c.delay)
    ensures Tracked(c, Apply(s, x.action), Recorded(out, x))
  {
    hide Apply, Enabled;
    var s', out' := Apply(s, x.action), Recorded(out, x);
    forall t, q | Holding(s', t, q)
      ensures q in out' && out'[q].task == t
      ensures q in s'.slots && s'.slots[q].fate != Queued
    {
      HoldingBefore(s, x.action, t, q);
      assert q in s.slots by { InSlots(s, x.action, q); }
      NotQueuedStays(s, x.action, q);
      assert x.action.Deliver? && x.action.seqNo == q ==> !Holding(s, t, q);
    }
  }

  lemma InSlots(s: State, a: Action, q: nat)
    requires Enabled(s, a)
    ensures a.Deliver? && a.seqNo == q ==> q in s.slots
  {
  }

  lemma {:induction false} TimedHeldStay(c: Clock, s: State, out: map<nat, Handout>, tr: seq<Timed>)
    requires c.interval >= 0.0 && c.interval + c.delay <= c.wait
    requires Tracked(c, s, out) && Legal(s, Actions(tr)) && TimedRun(c, s, out, tr)
    ensures HeldStay(s, Actions(tr))
    decreases |tr|
  {
    hide Apply, Enabled, Tracked, ServerWaits, KeepalivesRun, Unheld;
    if tr != [] {
      HeadTail(tr);
      if tr[0].action.Deliver? {
        DeliversUnheld(c, s, out, tr[0]);
      }
      TrackedStep(c, s, out, tr[0]);
      TimedHeldStay(c, Apply(s, tr[0].action), Recorded(out, tr[0]), tr[1..]);
    }
  }

  // ---- the result ----------------------------------------------------------

  /** On the clock, with interval and delay within AckWait and an id that belongs to
      one message: one run of the event, and one more for each failed lookup, failed
      mark, crash and purge of its own. */
  lemma LeasedRuns(c: Clock, maxBytes: nat, tr: seq<Timed>, k: Key)
    requires c.interval >= 0.0 && c.interval + c.delay <= c.wait
    requires Legal(Init(maxBytes), Actions(tr)) && TimedRun(c, Init(maxBytes), map[], tr)
    requires OneMessage(After(Init(maxBytes), Actions(tr)), k)
    ensures var log := After(Init(maxBytes), Actions(tr)).log;
      Tally(log, Starts(k)) <= 1 + Tally(log, FailedLookups(k)) + Tally(log, FailedMarks(k)) + Tally(log, Restarts)
                               + Tally(log, Purges(k))
  {
    hide Legal, After, TimedRun, HeldStay, SoleDeliveries, OneMessage;
    WiredInit(maxBytes);
    assert Tracked(c, Init(maxBytes), map[]);
    TimedHeldStay(c, Init(maxBytes), map[], tr);
    HeldStaySole(Init(maxBytes), Actions(tr), k);
    OneRunPerFault(maxBytes, Actions(tr), k);
  }

  /** As any accepted configuration gives it for delays of up to one second. */
  lemma ValidatedRuns(config: DaemonConfig, maxBytes: nat, tr: seq<Timed>, k: Key)
    requires config.Validate().Ok?
    requires Legal(Init(maxBytes), Actions(tr))
    requires TimedRun(Clock(config.ackProgressSecs as real, config.ackWaitSecs as real, 1.0), Init(maxBytes), map[], tr)
    requires OneMessage(After(Init(maxBytes), Actions(tr)), k)
    ensures var log := After(Init(maxBytes), Actions(tr)).log;
      Tally(log, Starts(k)) <= 1 + Tally(log, FailedLookups(k)) + Tally(log, FailedMarks(k)) + Tally(log, Restarts)
                               + Tally(log, Purges(k))
  {
    hide Legal, After, TimedRun, OneMessage;
    LeasedRuns(Clock(config.ackProgressSecs as real, config.ackWaitSecs as real, 1.0), maxBytes, tr, k);
  }
}
