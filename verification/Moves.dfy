/** Runs put together step by step. */
module Moves {
  import opened Protocol
  import opened Steps

  lemma NoSteps(s: State)
    ensures Legal(s, []) && After(s, []) == s
  {
  }

  lemma Next(s: State, tr: seq<Action>, a: Action) returns (more: seq<Action>, s': State)
    requires Legal(s, tr) && Enabled(After(s, tr), a)
    ensures more == tr + [a] && Legal(s, more) && s' == After(s, more) == Apply(After(s, tr), a)
  {
    hide Apply, Enabled;
    more := tr + [a];
    RunAppend(s, tr, [a]);
    s' := After(s, more);
  }

  lemma Prefix(s: State, a: Action, rest: seq<Action>)
    requires Enabled(s, a) && Legal(Apply(s, a), rest)
    ensures Legal(s, [a] + rest) && After(s, [a] + rest) == After(Apply(s, a), rest)
  {
    hide Apply, Enabled;
    var tr := [a] + rest;
    assert tr[0] == a && tr[1..] == rest;
  }

  /** Past its insert, holding a permit. */
  predicate Committed(k: Task) {
    k.InWindow() || k.pc.Resolving? || k.pc.Releasing?
  }

  /** The step that takes such a task on without running a handler it has not
      started, and with its ack lost. */
  function Onward(k: Task, u: TaskId): Action
    requires Committed(k)
  {
    match k.pc
    case Inserted => Spawn(u, false)
    case Running => Exit(u)
    case Exited => Mark(u, true)
    case Marked => Remove(u)
    case SpawnFailed => Remove(u)
    case Resolving => Resolve(u, false)
    case Releasing => Release(u)
  }

  /** What one task's steps leave as it was, entries' semaphores and messages included. */
  predicate Undisturbing(s: State, s': State) {
    && s'.maxBytes == s.maxBytes && s'.registry == s.registry && s'.polls == s.polls && s'.slots == s.slots
    && s'.limits == s.limits && s'.draining == s.draining
    && s'.states.Keys == s.states.Keys
    && forall a :: a in s.states ==> s'.states[a].permits == s.states[a].permits
  }

  /** One step of a committed task: nearer its end, its permit free at the end, and
      a record only when its handler has exited. */
  predicate Advances(s: State, s': State, u: TaskId)
    requires u in s.tasks && s.tasks[u].gen in s.sems
  {
    && Undisturbing(s, s')
    && u in s'.tasks && s'.tasks == s.tasks[u := s'.tasks[u]]
    && var k, k' := s.tasks[u], s'.tasks[u];
       && k'.Id() == k.Id() && k'.gen == k.gen && (k'.pc == Done || Committed(k'))
       && (k'.pc == Done <==> k.pc == Releasing)
       && Rank(k') < Rank(k) && (k'.Unrecorded() ==> k.Unrecorded())
       && s'.sems == (if k.pc == Releasing then s.sems[k.gen := s.sems[k.gen].(free := s.sems[k.gen].free + 1)] else s.sems)
       && s'.completed == (if k.pc == Exited then s.completed + {k.Id()} else s.completed)
       && (k.pc == Running ==> k'.pc == Exited)
  }

  lemma OnwardRun(s: State, u: TaskId)
    requires u in s.tasks && s.tasks[u].gen in s.sems
    requires s.tasks[u].pc == Inserted || s.tasks[u].pc == Running || s.tasks[u].pc == Exited
    ensures Enabled(s, Onward(s.tasks[u], u)) && Advances(s, Apply(s, Onward(s.tasks[u], u)), u)
  {
    hide Apply, Enabled;
    if s.tasks[u].pc == Inserted {
      SpawnIs(s, u, false);
    } else if s.tasks[u].pc == Running {
      ExitIs(s, u);
    } else {
      MarkIs(s, u, true);
    }
  }

  lemma OnwardOut(s: State, u: TaskId)
    requires u in s.tasks && s.tasks[u].gen in s.sems && (s.tasks[u].pc == Marked || s.tasks[u].pc == SpawnFailed)
    ensures Enabled(s, Onward(s.tasks[u], u)) && Advances(s, Apply(s, Onward(s.tasks[u], u)), u)
  {
    hide Apply, Enabled;
    RemoveIs(s, u);
  }

  lemma OnwardEnd(s: State, u: TaskId)
    requires u in s.tasks && s.tasks[u].gen in s.sems && (s.tasks[u].pc == Resolving || s.tasks[u].pc == Releasing)
    ensures Enabled(s, Onward(s.tasks[u], u)) && Advances(s, Apply(s, Onward(s.tasks[u], u)), u)
  {
    hide Apply, Enabled;
    if s.tasks[u].pc == Resolving {
      ResolveIs(s, u, false);
    } else {
      ReleaseIs(s, u);
    }
  }

  lemma OnwardStep(s: State, u: TaskId)
    requires u in s.tasks && Committed(s.tasks[u]) && s.tasks[u].gen in s.sems
    ensures Enabled(s, Onward(s.tasks[u], u)) && Advances(s, Apply(s, Onward(s.tasks[u], u)), u)
  {
    hide Apply, Enabled, Advances, Onward;
    match s.tasks[u].pc {
      case Inserted => OnwardRun(s, u);
      case Running => OnwardRun(s, u);
      case Exited => OnwardRun(s, u);
      case Marked => OnwardOut(s, u);
      case SpawnFailed => OnwardOut(s, u);
      case Resolving => OnwardEnd(s, u);
      case Releasing => OnwardEnd(s, u);
    }
  }

  function Rank(k: Task): nat {
    match k.pc
    case Inserted => 7
    case Running => 6
    case Exited => 5
    case Marked => 4
    case SpawnFailed => 4
    case Resolving => 3
    case Releasing => 2
    case _ => 0
  }

  /** Every action is a step of one task, with the store working. */
  predicate StepsOf(tr: seq<Action>, u: TaskId) {
    forall a :: a in tr ==> a.IsTaskStep() && a.task == u && (a.Lookup? || a.Mark? ==> a.ok)
  }

  /** A holder past its insert can come to its end alone: its permit is free then,
      and nothing else has changed but its own event's record, if its handler ran. */
  lemma {:induction false} HolderEnds(s: State, u: TaskId) returns (tr: seq<Action>)
    requires u in s.tasks && Committed(s.tasks[u]) && s.tasks[u].gen in s.sems
    ensures Legal(s, tr) && StepsOf(tr, u) && Undisturbing(s, After(s, tr))
    ensures var s', k := After(s, tr), s.tasks[u];
      && u in s'.tasks && s'.tasks == s.tasks[u := s'.tasks[u]] && s'.tasks[u].pc == Done
      && s'.sems == s.sems[k.gen := s.sems[k.gen].(free := s.sems[k.gen].free + 1)]
      && s'.completed == (if k.Unrecorded() then s.completed + {k.Id()} else s.completed)
    decreases Rank(s.tasks[u])
  {
    hide Apply, Enabled, Legal, After;
    var a := Onward(s.tasks[u], u);
    OnwardStep(s, u);
    var s1 := Apply(s, a);
    if s1.tasks[u].pc == Done {
      NoSteps(s1);
      Prefix(s, a, []);
      tr := [a] + [];
    } else {
      var rest := HolderEnds(s1, u);
      Prefix(s, a, rest);
      tr := [a] + rest;
    }
  }

  lemma {:induction false} FreshNumber(used: set<nat>) returns (n: nat)
    ensures forall h :: h in used ==> h < n
    decreases used
  {
    if used == {} {
      n := 0;
    } else {
      var h :| h in used;
      var m := FreshNumber(used - {h});
      n := if m <= h then h + 1 else m;
      assert used == (used - {h}) + {h};
    }
  }
}
