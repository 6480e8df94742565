/** How often a handler can run for one (agent, event), over every interleaving,
    fault, applied change, purge and crash. */
module EffectivelyOnce {
  import opened Common
  import opened Protocol
  import opened Steps
  import opened Counting
  import opened Invariants

  function Of(s: State, c: Counter): nat { Tally(s.log, c) }

  /** The runs that permits can let through: every purge of the record and every
      applied change opens another round of at most the largest concurrency. */
  function Rounds(conc: nat, changes: nat, purges: nat): nat {
    conc * (changes + 1) * (purges + 1)
  }

  /** Runs charged to a fault of their own. */
  function Charged(s: State, k: Key): int {
    Of(s, FailedLookups(k)) + Of(s, FailedMarks(k)) + Of(s, Restarts)
    + Of(s, Changes(k.agent)) - RecentChanges(s.log, k.agent)
  }

  function Allowance(s: State, k: Key): nat {
    Rounds(Peak(s.log, k.agent), Most(s.log, k.agent), Of(s, Purges(k)))
  }

  /** What purges so far have opened, not counting the round now under way. */
  function Spent(s: State, k: Key): nat {
    var p := Of(s, Purges(k));
    if p == 0 then 0 else Rounds(Peak(s.log, k.agent), Most(s.log, k.agent), p - 1)
  }

  function GensOf(s: State, a: AgentId): set<Gen> {
    set g | g in s.sems && s.sems[g].owner == a
  }

  /** No configuration in use is larger than the largest ever set. */
  ghost predicate WithinPeak(s: State) {
    && (forall a :: a in s.registry ==> s.registry[a].conc <= Peak(s.log, a))
    && (forall p :: p in s.polls ==> s.polls[p].conc <= Peak(s.log, s.polls[p].agent))
    && (forall t :: t in s.tasks && s.tasks[t].pc == Checked ==> s.tasks[t].conc <= Peak(s.log, s.tasks[t].agent))
    && (forall g :: g in s.sems ==> s.sems[g].capacity <= Peak(s.log, s.sems[g].owner))
  }

  /** An agent's semaphores in one lifetime: one, and one more per applied change. */
  ghost predicate FewGens(s: State, a: AgentId) {
    |GensOf(s, a)| <= RecentChanges(s.log, a) + Bit(a in s.states)
  }

  /** Tasks of one event inside the window that the in-flight set does not show:
      at most one per change applied in this lifetime. */
  function Orphans(s: State, k: Key): int {
    Num(s.tasks, Window(k)) - Bit(InFlight(s.states, k))
  }

  ghost predicate FewOrphans(s: State, k: Key) {
    Orphans(s, k) <= RecentChanges(s.log, k.agent)
  }

  ghost predicate Budgeted(s: State, k: Key) {
    if k in s.completed
    then Of(s, Starts(k)) + Num(s.tasks, BeforeStart(k)) <= Allowance(s, k) + Charged(s, k)
    else Of(s, Starts(k)) <= Num(s.tasks, Unrecorded(k)) + Spent(s, k) + Charged(s, k)
  }

  lemma RoundsGrow(n: nat, r: nat, p: nat, n': nat, r': nat, p': nat)
    requires n <= n' && r <= r' && p <= p'
    ensures Rounds(n, r, p) <= Rounds(n', r', p')
  {
    var x, y := n * (r + 1), n' * (r' + 1);
    Products(n, n', r + 1, r' + 1);
    Products(x, y, p + 1, p' + 1);
  }

  lemma Products(a: nat, b: nat, x: nat, y: nat)
    requires a <= b && x <= y
    ensures a * x <= b * y
  {
    Scale(x, a, b);
    Scale(b, x, y);
  }

  /** One more purge pays for the round that the next record closes. */
  lemma RoundsSplit(n: nat, r: nat, p: nat)
    ensures Rounds(n, r, p) == n * (r + 1) + (if p == 0 then 0 else Rounds(n, r, p - 1))
  {
    var x := n * (r + 1);
    assert x * (p + 1) == x * p + x;
  }

  // ---- permits -------------------------------------------------------------

  lemma Scale(n: nat, x: nat, y: nat)
    requires x <= y
    ensures n * x <= n * y
    ensures n * (x + 1) == n * x + n
  {
  }

  /** Tasks spread over some semaphores, each carrying at most `cap` of them. */
  lemma {:induction false} HoldersWithin(tasks: map<TaskId, Task>, gens: set<Gen>, held: set<TaskId>, cap: nat)
    requires forall g :: g in gens ==> Num(tasks, HoldersOf(g)) <= cap
    requires forall t :: t in held ==> t in tasks && tasks[t].Holds() && tasks[t].gen in gens
    ensures |held| <= cap * |gens|
    decreases gens
  {
    if gens == {} {
      assert held == {};
    } else {
      var g :| g in gens;
      var mine := set t | t in held && tasks[t].gen == g;
      HoldersWithin(tasks, gens - {g}, held - mine, cap);
      SubsetSize(mine, Sel(tasks, HoldersOf(g)));
      assert |held| == |held - mine| + |mine|;
      assert |gens| == |gens - {g}| + 1;
      Scale(cap, |gens - {g}|, |gens|);
    }
  }

  /** All the permits of one agent in one lifetime. */
  lemma PermitsBounded(s: State, a: AgentId)
    requires Sound(s) && WithinPeak(s) && FewGens(s, a)
    ensures Num(s.tasks, HoldersFor(a)) <= Peak(s.log, a) * (RecentChanges(s.log, a) + 1)
  {
    hide Peak, RecentChanges;
    var gens, n := GensOf(s, a), Peak(s.log, a);
    forall g | g in gens
      ensures Num(s.tasks, HoldersOf(g)) <= n
    {
      assert s.sems[g].free + Num(s.tasks, HoldersOf(g)) == s.sems[g].capacity;
    }
    forall t | t in Sel(s.tasks, HoldersFor(a))
      ensures t in s.tasks && s.tasks[t].Holds() && s.tasks[t].gen in gens
    {
      assert WiredTask(s, s.tasks[t]);
    }
    HoldersWithin(s.tasks, gens, Sel(s.tasks, HoldersFor(a)), n);
    Scale(n, |gens|, RecentChanges(s.log, a) + 1);
  }

  /** Distinct phases of one event hold distinct permits of its agent. */
  lemma PhasesHold(s: State, k: Key)
    ensures Num(s.tasks, BeforeStart(k)) + Num(s.tasks, Unrecorded(k)) <= Num(s.tasks, HoldersFor(k.agent))
    ensures Num(s.tasks, Handlers(k)) <= Num(s.tasks, Unrecorded(k))
    ensures Num(s.tasks, Unrecorded(k)) <= Num(s.tasks, Window(k)) <= Num(s.tasks, HoldersFor(k.agent))
  {
    var b, u := Sel(s.tasks, BeforeStart(k)), Sel(s.tasks, Unrecorded(k));
    SubsetSize(b + u, Sel(s.tasks, HoldersFor(k.agent)));
    assert b !! u;
    SubsetSize(Sel(s.tasks, Handlers(k)), u);
    SubsetSize(u, Sel(s.tasks, Window(k)));
    SubsetSize(Sel(s.tasks, Window(k)), Sel(s.tasks, HoldersFor(k.agent)));
  }

  // ---- what each step keeps ------------------------------------------------

  lemma PeakStep(s: State, a: Action, ag: AgentId)
    requires Enabled(s, a)
    ensures Peak(Apply(s, a).log, ag) >= Peak(s.log, ag)
    ensures a.Configure? && a.config.Some? && a.agent == ag ==> a.config.value.conc <= Peak(Apply(s, a).log, ag)
  {
    hide Apply, Peak;
    LogStep(s, a, Restarts, ag);
  }

  /** A concurrency a task carries was read from the registry by its check. */
  lemma CheckedFrom(s: State, a: Action)
    requires Wired(s) && Enabled(s, a) && a.IsTaskStep() && TaskAfter(s, a).pc == Checked
    ensures a.Check? && s.tasks[a.task].agent in s.registry
    ensures TaskAfter(s, a).agent == s.tasks[a.task].agent
    ensures TaskAfter(s, a).conc == s.registry[s.tasks[a.task].agent].conc
  {
    assert WiredTask(s, s.tasks[a.task]);
  }

  lemma TaskWithinPeak(s: State, a: Action, t: TaskId)
    requires Wired(s) && WithinPeak(s) && Enabled(s, a)
    requires t in Apply(s, a).tasks && Apply(s, a).tasks[t].pc == Checked
    ensures Apply(s, a).tasks[t].conc <= Peak(s.log, Apply(s, a).tasks[t].agent)
  {
    hide Apply, Enabled, TaskAfter, Peak;
    TaskCases(s, a, t);
    if a.IsTaskStep() && a.task == t {
      CheckedFrom(s, a);
    }
  }

  lemma SemWithinPeak(s: State, a: Action, g: Gen)
    requires Wired(s) && WithinPeak(s) && Enabled(s, a) && g in Apply(s, a).sems
    ensures Apply(s, a).sems[g].capacity <= Peak(s.log, Apply(s, a).sems[g].owner)
  {
    if a.Crash? {
      CrashFrame(s);
    } else {
      if g in s.sems {
        SemKept(s, a, g);
      } else {
        SemBorn(s, a, g);
      }
      if a.Ensure? {
        assert At(s, a.task, Checked);
      }
      hide Apply, Enabled, Peak;
    }
  }

  lemma WithinPeakStep(s: State, a: Action)
    requires Wired(s) && WithinPeak(s) && Enabled(s, a)
    ensures WithinPeak(Apply(s, a))
  {
    var s' := Apply(s, a);
    forall ag | ag in s'.registry
      ensures s'.registry[ag].conc <= Peak(s'.log, ag)
    {
      hide Peak;
      PeakStep(s, a, ag);
      RegistryStep(s, a, ag);
    }
    forall p | p in s'.polls
      ensures s'.polls[p].conc <= Peak(s'.log, s'.polls[p].agent)
    {
      hide Peak;
      PeakStep(s, a, s'.polls[p].agent);
      PollsStep(s, a, p);
    }
    hide Apply, Peak;
    forall t | t in s'.tasks && s'.tasks[t].pc == Checked
      ensures s'.tasks[t].conc <= Peak(s'.log, s'.tasks[t].agent)
    {
      TaskWithinPeak(s, a, t);
      PeakStep(s, a, s'.tasks[t].agent);
    }
    forall g | g in s'.sems
      ensures s'.sems[g].capacity <= Peak(s'.log, s'.sems[g].owner)
    {
      SemWithinPeak(s, a, g);
      PeakStep(s, a, s'.sems[g].owner);
    }
  }

  lemma RegistryStep(s: State, a: Action, ag: AgentId)
    requires Enabled(s, a) && ag in Apply(s, a).registry
    ensures (ag in s.registry && Apply(s, a).registry[ag] == s.registry[ag])
         || (a.Configure? && a.agent == ag && a.config == Some(Apply(s, a).registry[ag]))
  {
    RegistryIs(s, a);
    hide Apply;
  }

  lemma PollsStep(s: State, a: Action, p: PollId)
    requires Enabled(s, a) && p in Apply(s, a).polls
    ensures var r := Apply(s, a).polls[p];
      || (p in s.polls && r == s.polls[p])
      || (a.StartPoll? && r.agent in s.registry && r.conc == s.registry[r.agent].conc)
  {
    PollsAre(s, a);
    hide Apply;
  }

  lemma GensStep(s: State, a: Action, ag: AgentId)
    requires Wired(s) && Enabled(s, a)
    ensures |GensOf(Apply(s, a), ag)| <=
      if a.Crash? then 0
      else |GensOf(s, ag)| + Bit(ag !in s.states && ag in Apply(s, a).states)
  {
    hide Apply, Enabled;
    var before, after := GensOf(s, ag), GensOf(Apply(s, a), ag);
    if a.Crash? {
      CrashFrame(s);
      assert after == {};
    } else if (a.Poll? || a.Ensure?) && ag !in s.states && ag in Apply(s, a).states {
      forall g | g in after
        ensures g in before + {a.gen}
      {
        if g in s.sems {
          SemKept(s, a, g);
        } else {
          SemBorn(s, a, g);
        }
      }
      SubsetSize(after, before + {a.gen});
    } else {
      forall g | g in after
        ensures g in before
      {
        if g in s.sems {
          SemKept(s, a, g);
        } else {
          SemBorn(s, a, g);
        }
      }
      SubsetSize(after, before);
    }
  }

  lemma FewGensStep(s: State, a: Action, ag: AgentId)
    requires Wired(s) && FewGens(s, ag) && Enabled(s, a)
    ensures FewGens(Apply(s, a), ag)
  {
    hide Apply, Enabled, RecentChanges, GensOf, Wired;
    GensStep(s, a, ag);
    RecentStep(s, a, ag);
    EntryStep(s, a, ag);
  }

  lemma RecentStep(s: State, a: Action, ag: AgentId)
    requires Enabled(s, a)
    ensures RecentChanges(Apply(s, a).log, ag) ==
      if a.Crash? then 0 else RecentChanges(s.log, ag) + Bit(a == ApplyChange(ag) && ag in s.states)
  {
    hide Apply, RecentChanges, Tally, Peak;
    LogStep(s, a, Restarts, ag);
  }

  lemma EntryStep(s: State, a: Action, ag: AgentId)
    requires Enabled(s, a)
    ensures ag in s.states && ag !in Apply(s, a).states ==> a.Crash? || a == ApplyChange(ag)
  {
    StatesStep(s, a);
    hide Apply;
  }

  /** The exact account of orphans: a change that finds the event in flight makes
      one, and a remove that finds its own entry gone takes one away. */
  lemma OrphansStep(s: State, a: Action, k: Key)
    requires NoPhantoms(s) && Enabled(s, a)
    ensures Orphans(Apply(s, a), k) ==
      if a.Crash? then 0
      else
        Orphans(s, k) + Bit(a == ApplyChange(k.agent) && InFlight(s.states, k))
        - Bit(a.Remove? && s.tasks[a.task].Id() == k && !InFlight(s.states, k))
  {
    hide Apply, Num;
    InFlightStep(s, a, k);
    if a.Crash? {
      NumStep(s, a, Window(k));
    } else {
      WindowStep(s, a, k);
    }
  }

  lemma FewOrphansStep(s: State, a: Action, k: Key)
    requires NoPhantoms(s) && FewOrphans(s, k) && Enabled(s, a)
    ensures FewOrphans(Apply(s, a), k)
  {
    hide Apply, RecentChanges, Orphans;
    OrphansStep(s, a, k);
    LogStep(s, a, Restarts, k.agent);
  }

  lemma CompletedStep(s: State, a: Action, k: Key)
    requires Enabled(s, a)
    ensures k in Apply(s, a).completed <==>
      (a.Mark? && a.ok && s.tasks[a.task].Id() == k) || (k in s.completed && a != Purge(k))
  {
    CompletedIs(s, a);
    hide Apply;
  }

  /** Allowances only grow, and a purge turns the whole allowance into spent rounds. */
  lemma AllowanceStep(s: State, a: Action, k: Key)
    requires Enabled(s, a)
    ensures Allowance(Apply(s, a), k) >= Allowance(s, k)
    ensures Spent(Apply(s, a), k) >= if a == Purge(k) then Allowance(s, k) else Spent(s, k)
    ensures Allowance(s, k)
         == Spent(s, k) + Peak(s.log, k.agent) * (Most(s.log, k.agent) + 1)
  {
    hide Apply, Peak, Rounds;
    var s' := Apply(s, a);
    LogStep(s, a, Purges(k), k.agent);
    MostStep(s, a, k.agent);
    var n, r, p := Peak(s.log, k.agent), Most(s.log, k.agent), Of(s, Purges(k));
    var n', r', p' := Peak(s'.log, k.agent), Most(s'.log, k.agent), Of(s', Purges(k));
    RoundsGrow(n, r, p, n', r', p');
    RoundsSplit(n, r, p);
    if a == Purge(k) {
      RoundsGrow(n, r, p, n', r', p' - 1);
    } else if p > 0 {
      RoundsGrow(n, r, p - 1, n', r', p' - 1);
    }
  }

  /** The phases of one event, counted across one step. */
  lemma PhaseStep(s: State, a: Action, k: Key)
    requires Enabled(s, a) && !a.Crash?
    ensures var mine := a.IsTaskStep() && s.tasks[a.task].Id() == k;
      && Num(Apply(s, a).tasks, BeforeStart(k))
         <= Num(s.tasks, BeforeStart(k))
            + Bit(mine && a.Lookup? && !(a.ok && k in s.completed)) - Bit(mine && a.Spawn?)
      && Num(Apply(s, a).tasks, Unrecorded(k))
         == Num(s.tasks, Unrecorded(k)) + Bit(mine && a.Spawn? && a.ok) - Bit(mine && a.Mark?)
  {
    hide Apply, Enabled, TaskAfter, Num;
    NumStep(s, a, BeforeStart(k));
    NumStep(s, a, Unrecorded(k));
    if a.IsTaskStep() {
      ActorMoves(s, a);
    }
  }

  lemma ChargeStep(s: State, a: Action, k: Key)
    requires Enabled(s, a)
    ensures var mine := a.IsTaskStep() && s.tasks[a.task].Id() == k;
      && Of(Apply(s, a), Starts(k)) == Of(s, Starts(k)) + Bit(mine && a.Spawn? && a.ok)
      && Charged(Apply(s, a), k)
         == Charged(s, k) + Bit(mine && a.Lookup? && !a.ok) + Bit(mine && a.Mark? && !a.ok)
            + (if a.Crash? then 1 + RecentChanges(s.log, k.agent) else 0)
  {
    hide Apply, Tally, RecentChanges, Peak;
    LogStep(s, a, Starts(k), k.agent);
    LogStep(s, a, FailedLookups(k), k.agent);
    LogStep(s, a, FailedMarks(k), k.agent);
    LogStep(s, a, Restarts, k.agent);
    LogStep(s, a, Changes(k.agent), k.agent);
  }

  lemma BudgetedStep(s: State, a: Action, k: Key)
    requires Sound(s) && WithinPeak(s) && FewGens(s, k.agent) && FewOrphans(s, k)
    requires Budgeted(s, k) && Enabled(s, a)
    ensures Budgeted(Apply(s, a), k)
  {
    hide Apply, Enabled, Num, Peak, Tally, RecentChanges, Of, Charged, Allowance, Spent, Sound, WithinPeak;
    ChargeStep(s, a, k);
    AllowanceStep(s, a, k);
    CompletedStep(s, a, k);
    PhasesHold(s, k);
    if a.Crash? {
      NumStep(s, a, BeforeStart(k));
      NumStep(s, a, Unrecorded(k));
    } else {
      PhaseStep(s, a, k);
      if a.Mark? && k !in s.completed {
        PermitsBounded(s, k.agent);
        RecentIsMost(s.log, k.agent);
        Scale(Peak(s.log, k.agent), RecentChanges(s.log, k.agent) + 1, Most(s.log, k.agent) + 1);
      }
    }
  }

  ghost predicate Accounted(s: State) {
    && Sound(s) && WithinPeak(s)
    && (forall a :: FewGens(s, a))
    && (forall k :: FewOrphans(s, k))
    && (forall k :: Budgeted(s, k))
  }

  lemma AccountedParts(s: State, a: AgentId)
    requires Accounted(s)
    ensures Sound(s) && WithinPeak(s) && FewGens(s, a)
  {
  }

  lemma AccountedStep(s: State, a: Action)
    requires Accounted(s) && Enabled(s, a)
    ensures Accounted(Apply(s, a))
  {
    hide Apply, Enabled, FewGens, FewOrphans, Budgeted, Sound, WithinPeak;
    SoundStep(s, a);
    assert Wired(s) && NoPhantoms(s) by { SoundParts(s); }
    WithinPeakStep(s, a);
    forall ag
      ensures FewGens(Apply(s, a), ag)
    {
      FewGensStep(s, a, ag);
    }
    forall k
      ensures FewOrphans(Apply(s, a), k) && Budgeted(Apply(s, a), k)
    {
      FewOrphansStep(s, a, k);
      BudgetedStep(s, a, k);
    }
  }

  lemma SoundParts(s: State)
    requires Sound(s)
    ensures Wired(s) && Conserved(s) && NoPhantoms(s)
  {
  }

  lemma AccountedInit(maxBytes: nat)
    ensures Accounted(Init(maxBytes))
  {
    var s := Init(maxBytes);
    WiredInit(maxBytes);
    forall k: Key
      ensures FewOrphans(s, k) && Budgeted(s, k)
    {
      NumNone(s.tasks, Window(k));
      NumNone(s.tasks, Unrecorded(k));
    }
    forall a
      ensures FewGens(s, a)
    {
      assert GensOf(s, a) == {};
    }
  }

  lemma {:induction false} AccountedRun(s: State, tr: seq<Action>)
    requires Accounted(s) && Legal(s, tr)
    ensures Accounted(After(s, tr))
    decreases |tr|
  {
    hide Apply, Enabled, Accounted;
    if tr != [] {
      AccountedStep(s, tr[0]);
      AccountedRun(Apply(s, tr[0]), tr[1..]);
    }
  }

  lemma ReachableAccounted(s: State)
    requires Reachable(s)
    ensures Accounted(s)
  {
    hide Accounted;
    var tr :| Legal(Init(s.maxBytes), tr) && After(Init(s.maxBytes), tr) == s;
    AccountedInit(s.maxBytes);
    AccountedRun(Init(s.maxBytes), tr);
  }

  // ---- the results ---------------------------------------------------------

  lemma RunsWithinAllowance(s: State, k: Key)
    requires Accounted(s)
    ensures Of(s, Starts(k)) <= Allowance(s, k) + Charged(s, k)
  {
    hide Num, Peak, RecentChanges, Of, Rounds, Charged, Sound, WithinPeak, FewGens, FewOrphans;
    assert Budgeted(s, k) && FewGens(s, k.agent);
    if k !in s.completed {
      PhasesHold(s, k);
      PermitsBounded(s, k.agent);
      RecentIsMost(s.log, k.agent);
      Scale(Peak(s.log, k.agent), RecentChanges(s.log, k.agent) + 1, Most(s.log, k.agent) + 1);
      RoundsSplit(Peak(s.log, k.agent), Most(s.log, k.agent), Of(s, Purges(k)));
    }
  }

  /** Handler runs of one event, over any run at all.  With N the largest
      concurrency the agent was given, R the most changes that found its entry in one
      lifetime, P the times its record was purged, and the faults counted one by one:

        runs <= N (R + 1) (P + 1) + failed lookups + failed marks
                + crashes + changes applied before the last crash.          */
  lemma RunsBounded(s: State, k: Key)
    requires Reachable(s)
    ensures Tally(s.log, Starts(k))
         <= Peak(s.log, k.agent) * (Most(s.log, k.agent) + 1) * (Tally(s.log, Purges(k)) + 1)
            + Tally(s.log, FailedLookups(k)) + Tally(s.log, FailedMarks(k))
            + Tally(s.log, Restarts)
            + (Tally(s.log, Changes(k.agent)) - RecentChanges(s.log, k.agent))
  {
    hide Reachable, Accounted, Tally, Peak, RecentChanges, Rounds;
    ReachableAccounted(s);
    RunsWithinAllowance(s, k);
    RoundsIs(Peak(s.log, k.agent), Most(s.log, k.agent), Tally(s.log, Purges(k)));
  }

  lemma RoundsIs(n: nat, r: nat, p: nat)
    ensures Rounds(n, r, p) == n * (r + 1) * (p + 1)
  {
  }

  /** No change found the agent's entry, and nothing failed, purged or crashed. */
  predicate Faultless(log: seq<Obs>, k: Key) {
    && Tally(log, Changes(k.agent)) == Tally(log, Purges(k)) == 0
    && Tally(log, FailedLookups(k)) == Tally(log, FailedMarks(k)) == Tally(log, Restarts) == 0
  }

  /** A serial agent, left alone and without faults, runs each event at most once. */
  lemma SerialRunsOnce(s: State, k: Key)
    requires Reachable(s) && Peak(s.log, k.agent) <= 1 && Faultless(s.log, k)
    ensures Tally(s.log, Starts(k)) <= 1
  {
    hide Reachable, Tally, Peak, RecentChanges, Most;
    RunsBounded(s, k);
    MostWithinAll(s.log, k.agent);
    Scale(Peak(s.log, k.agent), 0, 1);
  }

  /** The only permit cannot be held twice. */
  lemma OnlyHolder(s: State, t: TaskId, u: TaskId, a: AgentId)
    requires Sound(s) && WithinPeak(s) && FewGens(s, a)
    requires Peak(s.log, a) <= 1 && RecentChanges(s.log, a) == 0
    requires t in s.tasks && s.tasks[t].Holds() && s.tasks[t].agent == a
    requires u in s.tasks && s.tasks[u].Holds() && s.tasks[u].agent == a
    ensures t == u
  {
    hide Sound, WithinPeak, FewGens, Peak, RecentChanges, Num;
    PermitsBounded(s, a);
    Scale(Peak(s.log, a), 0, 1);
    if t != u {
      NumTwo(s.tasks, t, u, HoldersFor(a));
    }
  }

  /** Its in-flight duplicate branch is never taken, whatever the store does. */
  lemma SerialNeverDrops(s: State, t: TaskId)
    requires Reachable(s) && At(s, t, Armed)
    requires Peak(s.log, s.tasks[t].agent) <= 1 && RecentChanges(s.log, s.tasks[t].agent) == 0
    ensures !InFlight(s.states, s.tasks[t].Id())
  {
    var k := s.tasks[t].Id();
    ReachableAccounted(s);
    AccountedParts(s, k.agent);
    hide Reachable, Accounted, Sound, WithinPeak, FewGens, Peak, RecentChanges;
    if InFlight(s.states, k) {
      assert NoPhantoms(s) by { SoundParts(s); }
      var u := SomeHolder(s, k);
      OnlyHolder(s, t, u, k.agent);
    }
  }

  /** Every id in an in-flight set belongs to a live task inside its window,
      at all times and across changes. */
  lemma InFlightIsLive(s: State, k: Key)
    requires Reachable(s) && InFlight(s.states, k)
    ensures exists t :: t in s.tasks && s.tasks[t].Id() == k && s.tasks[t].InWindow()
  {
    ReachableSound(s);
    var u := SomeHolder(s, k);
  }

  /** Handlers of one event that overlap: one, and one more per change applied
      to the agent in this lifetime. */
  lemma OverlapBounded(s: State, k: Key)
    requires Reachable(s)
    ensures Num(s.tasks, Unrecorded(k)) <= Num(s.tasks, Window(k)) <= 1 + RecentChanges(s.log, k.agent)
  {
    ReachableAccounted(s);
    assert FewOrphans(s, k);
    PhasesHold(s, k);
  }

  /** Changes along a run that found the event in flight. */
  function Orphanings(s: State, tr: seq<Action>, k: Key): nat
    requires Legal(s, tr)
    decreases |tr|
  {
    if tr == [] then 0
    else Bit(tr[0] == ApplyChange(k.agent) && InFlight(s.states, k)) + Orphanings(Apply(s, tr[0]), tr[1..], k)
  }

  /** Overlap grows only when a change finds the event in flight.  In particular,
      from a moment when at most the in-flight set's own task is in the window,
      handlers of an event do not overlap until such a change. */
  lemma {:induction false} OverlapNeedsOrphaning(s: State, tr: seq<Action>, k: Key)
    requires Reachable(s) && Legal(s, tr)
    ensures Num(After(s, tr).tasks, Window(k))
         <= 1 + Orphanings(s, tr, k) + (if Orphans(s, k) > 0 then Orphans(s, k) else 0)
    decreases |tr|
  {
    hide Apply, Enabled, InFlight, Num, Reachable;
    if tr != [] {
      assert NoPhantoms(s) by { ReachableSound(s); }
      OrphansStep(s, tr[0], k);
      ReachableStep(s, tr[0]);
      OverlapNeedsOrphaning(Apply(s, tr[0]), tr[1..], k);
    }
  }
}
