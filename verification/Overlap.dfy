/** When applying a change lets handlers of one event overlap, and when it does not. */
module Overlap {
  import opened Common
  import opened Protocol
  import opened Steps
  import opened Counting
  import opened Invariants
  import opened NoLoss
  import opened EffectivelyOnce
  import opened Moves

  /** A copy of a pending message of the event would pass the gates and its lookup. */
  predicate Runnable(s: State, k: Key, q: nat) {
    && !s.draining && k !in s.completed
    && q in s.slots && s.slots[q].fate == Pending && KeyOf(s.slots[q].msg) == k
    && Verdict(s, s.slots[q].msg) == Undecided
  }

  /** The agent has an entry with a free permit that does not show the event. */
  predicate Open(s: State, k: Key) {
    && k.agent in s.states && s.states[k.agent].permits in s.sems
    && s.sems[s.states[k.agent].permits].free > 0
    && !InFlight(s.states, k)
  }

  predicate NoChange(tr: seq<Action>) { forall a :: a in tr ==> !a.ApplyChange? }

  /** A copy is delivered and passes the gates. */
  lemma CopyChecked(s: State, k: Key, q: nat, t: TaskId) returns (tr: seq<Action>)
    requires Runnable(s, k, q) && t !in s.tasks
    ensures Legal(s, tr) && NoChange(tr)
    ensures var s' := After(s, tr);
      && t in s'.tasks && s' == s.(tasks := s.tasks[t := s'.tasks[t]]) && s'.tasks[t].pc == Checked && s'.tasks[t].Id() == k
  {
    hide Apply, Enabled, Legal, After, InFlight;
    NoSteps(s);
    var s1;
    RedeliverIs(s, t, q);
    tr, s1 := Next(s, [], Deliver(t, q));
    CheckIs(s1, t);
    tr, s1 := Next(s, tr, Check(t));
  }

  /** And takes a permit. */
  lemma CopyPermitted(s: State, k: Key, q: nat, t: TaskId) returns (tr: seq<Action>)
    requires Runnable(s, k, q) && Open(s, k) && t !in s.tasks
    ensures Legal(s, tr) && NoChange(tr) && Runnable(After(s, tr), k, q)
    ensures var s', g := After(s, tr), s.states[k.agent].permits;
      && t in s'.tasks && s'.tasks == s.tasks[t := s'.tasks[t]] && s'.tasks[t].pc == Permitted && s'.tasks[t].Id() == k
      && s'.states == s.states && s'.sems == s.sems[g := s.sems[g].(free := s.sems[g].free - 1)]
  {
    hide Apply, Enabled, Legal, After, InFlight;
    tr := CopyChecked(s, k, q, t);
    var s1 := After(s, tr);
    EnsureIs(s1, t, 0);
    tr, s1 := Next(s, tr, Ensure(t, 0));
    AcquireIs(s1, t);
    tr, s1 := Next(s, tr, Acquire(t));
  }

  /** Its lookup misses, it inserts, and its handler starts. */
  lemma PermittedRuns(s: State, k: Key, q: nat, t: TaskId) returns (tr: seq<Action>)
    requires Runnable(s, k, q) && At(s, t, Permitted) && s.tasks[t].Id() == k
    requires k.agent in s.states && !InFlight(s.states, k)
    ensures Legal(s, tr) && NoChange(tr) && Runnable(After(s, tr), k, q)
    ensures var s' := After(s, tr);
      && s'.tasks == s.tasks[t := s.tasks[t].(pc := Running)] && s'.sems == s.sems
      && s'.states == InsertInFlight(s.states, k.agent, k.event, s.tasks[t].gen)
  {
    hide Apply, Enabled, Legal, After, InFlight, InsertInFlight;
    NoSteps(s);
    var s1;
    LookupIs(s, t, true);
    tr, s1 := Next(s, [], Lookup(t, true));
    InsertIs(s1, t);
    tr, s1 := Next(s, tr, Insert(t));
    SpawnIs(s1, t, true);
    tr, s1 := Next(s, tr, Spawn(t, true));
  }

  /** From an open entry, another copy of the message comes to run. */
  lemma CopyRuns(s: State, k: Key, q: nat, t: TaskId) returns (tr: seq<Action>)
    requires Runnable(s, k, q) && Open(s, k) && t !in s.tasks
    ensures Legal(s, tr) && NoChange(tr) && Runnable(After(s, tr), k, q)
    ensures var s', g := After(s, tr), s.states[k.agent].permits;
      && t in s'.tasks && s'.tasks == s.tasks[t := s'.tasks[t]] && s'.tasks[t].pc == Running && s'.tasks[t].Id() == k
      && k.agent in s'.states && s'.states[k.agent].permits == g
      && s'.sems == s.sems[g := s.sems[g].(free := s.sems[g].free - 1)]
  {
    var first := CopyPermitted(s, k, q, t);
    hide Apply, Enabled, Legal, After, InFlight, Runnable;
    var s1 := After(s, first);
    var rest := PermittedRuns(s1, k, q, t);
    RunAppend(s, first, rest);
    tr := first + rest;
  }

  /** A dropped entry is made again, with the permits now configured. */
  lemma Reopened(s: State, k: Key, q: nat) returns (tr: seq<Action>)
    requires Runnable(s, k, q) && k.agent !in s.states && s.registry[k.agent].conc >= 1
    ensures Legal(s, tr) && NoChange(tr) && Runnable(After(s, tr), k, q) && Open(After(s, tr), k)
    ensures var s' := After(s, tr);
      s'.tasks == s.tasks && s'.sems[s'.states[k.agent].permits].free == s.registry[k.agent].conc
  {
    hide Apply, Enabled, Legal, After;
    NoSteps(s);
    var g := FreshNumber(s.sems.Keys);
    var p := FreshNumber(s.polls.Keys);
    var s1;
    StartPollIs(s, p, k.agent);
    tr, s1 := Next(s, [], StartPoll(p, k.agent));
    PollIs(s1, p, g);
    tr, s1 := Next(s, tr, Poll(p, g));
  }

  /** A task in hand for the event comes to have its handler running, or leaves the
      in-flight set without a record. */
  lemma InHandMoves(s: State, k: Key, q: nat, u: TaskId) returns (tr: seq<Action>)
    requires Runnable(s, k, q) && u in s.tasks && s.tasks[u].Id() == k && s.tasks[u].InWindow() && k.agent in s.states
    ensures Legal(s, tr) && NoChange(tr) && Runnable(After(s, tr), k, q)
    ensures var s' := After(s, tr);
      && u in s'.tasks && s'.tasks == s.tasks[u := s'.tasks[u]] && s'.sems == s.sems
      && k.agent in s'.states && s'.states[k.agent].permits == s.states[k.agent].permits
      && s'.tasks[u].Id() == k && (s'.tasks[u].pc == Running || !InFlight(s'.states, k))
  {
    hide Apply, Enabled, Legal, After;
    NoSteps(s);
    tr := [];
    var s1 := s;
    if s.tasks[u].pc == Inserted {
      SpawnIs(s, u, true);
      tr, s1 := Next(s, [], Spawn(u, true));
    } else if s.tasks[u].pc != Running {
      if s.tasks[u].pc == Exited {
        MarkIs(s, u, false);
        tr, s1 := Next(s, [], Mark(u, false));
      }
      RemoveIs(s1, u);
      tr, s1 := Next(s, tr, Remove(u));
    }
  }

  /** With a task in hand for the event and an entry of two free permits that does
      not show it, a run without a change has two handlers of the event running. */
  lemma OpenOverlap(s: State, k: Key, q: nat, u: TaskId) returns (tr: seq<Action>)
    requires Runnable(s, k, q) && Open(s, k) && s.sems[s.states[k.agent].permits].free >= 2
    requires u in s.tasks && s.tasks[u].Id() == k && s.tasks[u].InWindow()
    ensures Legal(s, tr) && NoChange(tr) && Num(After(s, tr).tasks, Handlers(k)) >= 2
  {
    hide Apply, Enabled, Legal, After, Runnable, InFlight, Num;
    var t := FreshNumber(s.tasks.Keys);
    tr := CopyRuns(s, k, q, t);
    var moved := InHandMoves(After(s, tr), k, q, u);
    RunAppend(s, tr, moved);
    tr := tr + moved;
    var s2 := After(s, tr);
    if s2.tasks[u].pc == Running {
      NumTwo(s2.tasks, u, t, Handlers(k));
    } else {
      var v := FreshNumber(s2.tasks.Keys);
      var third := CopyRuns(s2, k, q, v);
      RunAppend(s, tr, third);
      tr := tr + third;
      NumTwo(After(s, tr).tasks, t, v, Handlers(k));
    }
  }

  /** On a dropped entry, with two permits configured, redeliveries of a message that
      is out are enough. */
  lemma HandlersOverlap(s: State, k: Key, q: nat, u: TaskId) returns (tr: seq<Action>)
    requires Runnable(s, k, q) && k.agent !in s.states && s.registry[k.agent].conc >= 2
    requires u in s.tasks && s.tasks[u].Id() == k && s.tasks[u].InWindow()
    ensures Legal(s, tr) && NoChange(tr) && Num(After(s, tr).tasks, Handlers(k)) >= 2
  {
    tr := Reopened(s, k, q);
    hide Apply, Enabled, Legal, After, Runnable, Open, Num;
    var rest := OpenOverlap(After(s, tr), k, q, u);
    RunAppend(s, tr, rest);
    tr := tr + rest;
  }

  // ---- the environment brings another copy ---------------------------------

  function QueuedFor(slots: map<nat, Slot>, a: AgentId): set<nat> {
    set q | q in slots && slots[q].msg.dest == a && slots[q].fate == Queued
  }

  /** The messages an agent has queued expire. */
  lemma {:induction false} QueueExpires(s: State, a: AgentId) returns (tr: seq<Action>)
    ensures Legal(s, tr) && NoChange(tr) && QueuedFor(After(s, tr).slots, a) == {}
    ensures var s' := After(s, tr); s' == s.(slots := s'.slots, log := s'.log)
    decreases QueuedFor(s.slots, a)
  {
    hide Apply, Enabled, Legal, After;
    if q :| q in QueuedFor(s.slots, a) {
      ExpireIs(s, q);
      var s1 := Apply(s, Expire(q));
      assert QueuedFor(s1.slots, a) == QueuedFor(s.slots, a) - {q};
      var rest := QueueExpires(s1, a);
      Prefix(s, Expire(q), rest);
      tr := [Expire(q)] + rest;
    } else {
      NoSteps(s);
      tr := [];
    }
  }

  /** An old record of the event is purged. */
  lemma Forgotten(s: State, k: Key) returns (tr: seq<Action>)
    ensures Legal(s, tr) && NoChange(tr) && k !in After(s, tr).completed
    ensures var s' := After(s, tr); s' == s.(completed := s'.completed, log := s'.log)
  {
    hide Apply, Enabled, Legal, After;
    NoSteps(s);
    tr := [];
    var s1;
    if k in s.completed {
      PurgeIs(s, k);
      tr, s1 := Next(s, [], Purge(k));
    }
  }

  /** The agent is configured and bound with room for one more message and with two
      permits at least. */
  lemma RoomMade(s: State, a: AgentId) returns (tr: seq<Action>)
    ensures Legal(s, tr) && NoChange(tr)
    ensures var s' := After(s, tr);
      && a in s'.registry && s'.registry[a].enabled && s'.registry[a].conc >= 2
      && a in s'.limits && |Outstanding(s.slots, a)| < s'.limits[a]
      && s' == s.(registry := s'.registry, limits := s'.limits, log := s'.log)
  {
    hide Apply, Enabled, Legal, After;
    NoSteps(s);
    var n := |Outstanding(s.slots, a)| + 2;
    var s1;
    ConfigureIs(s, a, Config(n, true));
    tr, s1 := Next(s, [], Configure(a, Some(Config(n, true))));
    BindIs(s1, a, n);
    tr, s1 := Next(s, tr, Bind(a, n));
  }

  /** A message of the event is published and delivered. */
  lemma Sent(s: State, k: Key) returns (tr: seq<Action>, q: nat)
    requires !s.draining && k !in s.completed && QueuedFor(s.slots, k.agent) == {}
    requires k.agent in s.registry && s.registry[k.agent].enabled
    requires k.agent in s.limits && |Outstanding(s.slots, k.agent)| < s.limits[k.agent]
    ensures Legal(s, tr) && NoChange(tr) && Runnable(After(s, tr), k, q)
    ensures var s' := After(s, tr);
      && s' == s.(slots := s'.slots, tasks := s'.tasks)
      && forall u :: u in s.tasks ==> u in s'.tasks && s'.tasks[u] == s.tasks[u]
  {
    hide Apply, Enabled, Legal, After;
    NoSteps(s);
    q := FreshNumber(s.slots.Keys);
    var t := FreshNumber(s.tasks.Keys);
    var m := Message(k.agent, 0, Some(Envelope(k.agent, k.event)));
    var s1;
    PublishIs(s, q, m);
    tr, s1 := Next(s, [], Publish(q, m));
    QueueHead(s, s1, q, m);
    DeliverIs(s1, t, q);
    tr, s1 := Next(s, tr, Deliver(t, q));
  }

  lemma QueueHead(s: State, s1: State, q: nat, m: Message)
    requires q !in s.slots && s1 == s.(slots := s.slots[q := Slot(m, Queued)])
    requires QueuedFor(s.slots, m.dest) == {}
    requires m.dest in s.limits && |Outstanding(s.slots, m.dest)| < s.limits[m.dest]
    ensures NextInLine(s1, q)
  {
    assert Outstanding(s1.slots, m.dest) == Outstanding(s.slots, m.dest);
    forall p | p in s1.slots && p < q && s1.slots[p].msg.dest == m.dest
      ensures s1.slots[p].fate != Queued
    {
      assert p !in QueuedFor(s.slots, m.dest);
    }
  }

  /** Whatever the agent's configuration, record and queue, the environment can make
      a copy of the event runnable. */
  lemma MadeRunnable(s: State, k: Key) returns (tr: seq<Action>, q: nat)
    requires !s.draining && k.agent !in s.states
    ensures Legal(s, tr) && NoChange(tr) && Runnable(After(s, tr), k, q)
    ensures var s' := After(s, tr);
      && k.agent !in s'.states && s'.registry[k.agent].conc >= 2
      && forall u :: u in s.tasks ==> u in s'.tasks && s'.tasks[u] == s.tasks[u]
  {
    hide Apply, Enabled, Legal, After, Runnable;
    tr := Forgotten(s, k);
    var cleared := QueueExpires(After(s, tr), k.agent);
    RunAppend(s, tr, cleared);
    tr := tr + cleared;
    var room := RoomMade(After(s, tr), k.agent);
    RunAppend(s, tr, room);
    tr := tr + room;
    var sent;
    sent, q := Sent(After(s, tr), k);
    RunAppend(s, tr, sent);
    tr := tr + sent;
    RunnableRegistered(After(s, tr), k, q);
  }

  lemma RunnableRegistered(s: State, k: Key, q: nat)
    requires Runnable(s, k, q)
    ensures k.agent in s.registry
  {
  }

  /** So whoever has the event in hand at a change can come to run beside another. */
  lemma InHandOverlaps(s: State, k: Key, u: TaskId) returns (tr: seq<Action>)
    requires !s.draining && k.agent !in s.states
    requires u in s.tasks && s.tasks[u].Id() == k && s.tasks[u].InWindow()
    ensures Legal(s, tr) && NoChange(tr) && Num(After(s, tr).tasks, Handlers(k)) >= 2
  {
    hide Apply, Enabled, Legal, After, Runnable, Num;
    var q;
    tr, q := MadeRunnable(s, k);
    RunnableRegistered(After(s, tr), k, q);
    var rest := HandlersOverlap(After(s, tr), k, q, u);
    RunAppend(s, tr, rest);
    tr := tr + rest;
  }

  lemma {:induction false} NoChangeNoOrphaning(s: State, tr: seq<Action>, k: Key)
    requires Legal(s, tr) && ApplyChange(k.agent) !in tr
    ensures Orphanings(s, tr, k) == 0
    decreases |tr|
  {
    hide Apply, Enabled, InFlight;
    if tr != [] {
      NoChangeNoOrphaning(Apply(s, tr[0]), tr[1..], k);
    }
  }

  /** After a change to the agent, and until the next one, no two handlers of the
      event are ever running at the same time. */
  ghost predicate ChangeIsSafe(s: State, k: Key) {
    forall tr :: Legal(s, tr) && |tr| > 0 && tr[0] == ApplyChange(k.agent) && ApplyChange(k.agent) !in tr[1..] ==>
      Num(After(s, tr).tasks, Handlers(k)) <= 1
  }

  /** A change is safe for an event exactly when no task has it in hand, that is,
      between its in-flight insert and its remove; whatever the change is, and
      whether or not the event is recorded or a copy of it is out. */
  lemma ChangeIsSafeExactly(s: State, k: Key)
    requires Reachable(s) && !s.draining
    ensures ChangeIsSafe(s, k) <==> Num(s.tasks, Window(k)) == 0
  {
    hide Apply, Enabled, Num, Reachable, InFlight;
    assert NoPhantoms(s) by { ReachableSound(s); }
    if Num(s.tasks, Window(k)) == 0 {
      forall tr | Legal(s, tr) && |tr| > 0 && tr[0] == ApplyChange(k.agent) && ApplyChange(k.agent) !in tr[1..]
        ensures Num(After(s, tr).tasks, Handlers(k)) <= 1
      {
        OverlapNeedsOrphaning(s, tr, k);
        NoChangeNoOrphaning(Apply(s, tr[0]), tr[1..], k);
        PhasesHold(After(s, tr), k);
      }
    } else {
      var a := ApplyChange(k.agent);
      var u := SomeInHand(s, k);
      ApplyChangeIs(s, k.agent);
      var rest := InHandOverlaps(Apply(s, a), k, u);
      var tr := [a] + rest;
      assert tr[0] == a && tr[1..] == rest;
    }
  }

  lemma SomeInHand(s: State, k: Key) returns (u: TaskId)
    requires Num(s.tasks, Window(k)) > 0
    ensures u in s.tasks && s.tasks[u].Id() == k && s.tasks[u].InWindow()
  {
    u :| u in Sel(s.tasks, Window(k));
  }
}
