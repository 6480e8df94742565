/** The relay's pull loops, and how they follow the registry. */
module Relays {
  import opened Common
  import opened ReloadDiff
  import opened Registries

  type LoopId = nat

  /** One attempt to bind an agent's consumer. */
  datatype Bind = Bind(id: string, ok: bool)

  class Relay {
    const registry: Registry
    /** The pull loop of each consumed agent. */
    var pulls: map<string, LoopId>
    /** The spawned loops that have not been aborted, with their agents. */
    var live: map<LoopId, string>
    var spawned: nat
    /** Every attempt to bind, in order. */
    ghost var binds: seq<Bind>

    /** The live loops are exactly those in the map, so an agent has one at most. */
    ghost predicate Valid()
      reads this
    {
      && (forall a :: a in pulls ==> pulls[a] in live && live[pulls[a]] == a)
      && (forall l :: l in live ==> live[l] in pulls && pulls[live[l]] == l)
      && (forall l :: l in live ==> l < spawned)
    }

    constructor (registry: Registry)
      ensures Valid() && this.registry == registry && pulls == map[] && binds == []
    {
      this.registry := registry;
      pulls, live, spawned, binds := map[], map[], 0, [];
    }

    method BindConsumer(a: string, unbound: set<string>) returns (ok: bool)
      modifies this`binds
      ensures ok <==> a !in unbound
      ensures binds == old(binds) + [Bind(a, ok)]
    {
      ok := a !in unbound;
      binds := binds + [Bind(a, ok)];
    }

    /** Spawn a loop, file it, and abort the one it replaces. */
    method StartPull(a: string)
      requires Valid()
      modifies this
      ensures Valid() && pulls.Keys == old(pulls.Keys) + {a} && binds == old(binds)
      ensures pulls[a] !in old(live) && forall b :: b in old(pulls) && b != a ==> pulls[b] == old(pulls)[b]
    {
      var handle := spawned;
      spawned := spawned + 1;
      live := live[handle := a];
      var replaced := if a in pulls then {pulls[a]} else {};
      pulls := pulls[a := handle];
      live := live - replaced;
    }

    method StopPull(a: string)
      requires Valid()
      modifies this
      ensures Valid() && pulls == old(pulls) - {a} && binds == old(binds)
    {
      if a in pulls {
        var handle := pulls[a];
        pulls := pulls - {a};
        live := live - {handle};
      }
    }

    /** Bind and pull for added and enabled agents, rebind updated ones, stop the
        rest.  A bind fails for the agents in `unbound`. */
    method ApplyChanges(changes: seq<Change>, unbound: set<string>)
      requires Valid()
      modifies this
      ensures Valid()
      ensures pulls.Keys == PullsAfter(old(pulls.Keys), registry.agents, changes, unbound)
      ensures binds == old(binds) + Binds(registry.agents, changes, unbound)
      ensures OneEach(changes) ==> forall i :: 0 <= i < |changes| && Stops(registry.agents, changes[i]) ==>
        changes[i].AgentId() !in pulls && forall l :: l in live ==> live[l] != changes[i].AgentId()
    {
      ghost var before := pulls.Keys;
      for i := 0 to |changes|
        invariant Valid()
        invariant pulls.Keys == PullsAfter(before, registry.agents, changes[..i], unbound)
        invariant binds == old(binds) + Binds(registry.agents, changes[..i], unbound)
      {
        var change := changes[i];
        assert changes[..i + 1][..i] == changes[..i];
        assert Binds(registry.agents, changes[..i + 1], unbound)
            == Binds(registry.agents, changes[..i], unbound) + BindOf(registry.agents, change, unbound);
        hide PullsAfter, Binds;
        ApplyChange(change, unbound);
        PullsNext(before, registry.agents, changes, unbound, i);
      }
      assert changes[..|changes|] == changes;
      if OneEach(changes) {
        forall i | 0 <= i < |changes| && Stops(registry.agents, changes[i])
          ensures changes[i].AgentId() !in pulls
        {
          StoppedAfter(before, registry.agents, changes, unbound, i);
        }
      }
    }

    method ApplyChange(change: Change, unbound: set<string>)
      requires Valid()
      modifies this
      ensures Valid()
      ensures pulls.Keys == PullsStep(old(pulls.Keys), registry.agents, change, unbound)
      ensures binds == old(binds) + BindOf(registry.agents, change, unbound)
    {
      var id := change.AgentId();
      match change {
        case Added(_) =>
          var ok := BindConsumer(id, unbound);
          if ok {
            StartPull(id);
          }
        case Enabled(_) =>
          var ok := BindConsumer(id, unbound);
          if ok {
            StartPull(id);
          }
        case Updated(_) =>
          StopPull(id);
          var c := registry.Get(id);
          if c.Some? && c.value.enabled {
            var ok := BindConsumer(id, unbound);
            if ok {
              StartPull(id);
            }
          }
        case Disabled(_) =>
          StopPull(id);
        case Removed(_) =>
          StopPull(id);
      }
    }

    /** Startup: every enabled agent counts as added. */
    method SyncConsumers(unbound: set<string>)
      requires Valid() && Filed(registry.agents)
      modifies this
      ensures Valid()
      ensures pulls.Keys == old(pulls.Keys) + (set id | id in registry.agents && registry.agents[id].enabled && id !in unbound)
      ensures old(pulls.Keys) == {} ==> Covered(registry.agents, pulls.Keys, binds)
      ensures old(binds) <= binds && forall i :: |old(binds)| <= i < |binds| && !binds[i].ok ==> binds[i].id in unbound
    {
      var changes: seq<Change> := [];
      var left := registry.agents.Keys;
      while left != {}
        invariant left <= registry.agents.Keys
        invariant forall c :: c in changes ==> c.Added?
        invariant forall id :: (exists c :: c in changes && c.AgentId() == id) <==>
                    id in registry.agents && id !in left && registry.agents[id].enabled
        decreases left
      {
        var id :| id in left;
        left := left - {id};
        if registry.agents[id].enabled {
          var c := Added(registry.agents[id]);
          changes := changes + [c];
          assert c in changes;
        }
      }
      ghost var before, bound := pulls.Keys, binds;
      ApplyChanges(changes, unbound);
      AddedAll(before, registry.agents, changes, unbound);
      AddedBinds(bound, registry.agents, changes, unbound);
      BindsFailed(registry.agents, changes, unbound);
      forall id
        ensures id in pulls.Keys <==>
          id in before || (id in registry.agents && registry.agents[id].enabled && id !in unbound)
      {
      }
    }

    /** Shutdown takes the handles out of the map and aborts them one by one; no loop
        is left alive, because every live loop was in the map. */
    method StopAll()
      requires Valid()
      modifies this
      ensures Valid() && pulls == map[] && live == map[] && binds == old(binds)
    {
      var handles := pulls.Values;
      pulls := map[];
      while handles != {}
        invariant live.Keys <= handles && pulls == map[] && binds == old(binds)
        decreases handles
      {
        var h :| h in handles;
        handles := handles - {h};
        live := live - {h};
      }
    }
  }

  /** What one change does to the set of pulled agents. */
  function PullsStep(pulls: set<string>, agents: Agents, c: Change, unbound: set<string>): set<string> {
    var id := c.AgentId();
    match c
    case Added(_) => if id in unbound then pulls else pulls + {id}
    case Enabled(_) => if id in unbound then pulls else pulls + {id}
    case Updated(_) =>
      if id in agents && agents[id].enabled && id !in unbound then pulls + {id} else pulls - {id}
    case Disabled(_) => pulls - {id}
    case Removed(_) => pulls - {id}
  }

  function PullsAfter(pulls: set<string>, agents: Agents, changes: seq<Change>, unbound: set<string>): set<string> {
    if changes == [] then pulls
    else PullsStep(PullsAfter(pulls, agents, changes[..|changes| - 1], unbound), agents, changes[|changes| - 1], unbound)
  }

  /** The attempt that a change makes, if it makes one. */
  function BindOf(agents: Agents, c: Change, unbound: set<string>): seq<Bind> {
    var id := c.AgentId();
    if c.Added? || c.Enabled? || (c.Updated? && id in agents && agents[id].enabled)
    then [Bind(id, id !in unbound)]
    else []
  }

  function Binds(agents: Agents, changes: seq<Change>, unbound: set<string>): seq<Bind> {
    if changes == [] then []
    else Binds(agents, changes[..|changes| - 1], unbound) + BindOf(agents, changes[|changes| - 1], unbound)
  }

  /** The last attempt to bind the agent, if there was one, failed. */
  predicate LastFailed(binds: seq<Bind>, id: string) {
    binds != [] && (var last := binds[|binds| - 1]; if last.id == id then !last.ok else LastFailed(binds[..|binds| - 1], id))
  }

  lemma LastFailedNext(binds: seq<Bind>, b: Bind, id: string)
    ensures LastFailed(binds + [b], id) <==> if b.id == id then !b.ok else LastFailed(binds, id)
  {
    assert (binds + [b])[..|binds|] == binds;
  }

  lemma PullsNext(pulls: set<string>, agents: Agents, changes: seq<Change>, unbound: set<string>, i: nat)
    requires i < |changes|
    ensures PullsAfter(pulls, agents, changes[..i + 1], unbound)
         == PullsStep(PullsAfter(pulls, agents, changes[..i], unbound), agents, changes[i], unbound)
  {
    assert changes[..i + 1][..i] == changes[..i];
  }

  lemma {:induction false} BindsFailed(agents: Agents, changes: seq<Change>, unbound: set<string>)
    ensures forall b :: b in Binds(agents, changes, unbound) && !b.ok ==> b.id in unbound
  {
    if changes != [] {
      BindsFailed(agents, changes[..|changes| - 1], unbound);
    }
  }

  lemma {:induction false} AddedBinds(binds: seq<Bind>, agents: Agents, changes: seq<Change>, unbound: set<string>)
    requires forall c :: c in changes ==> c.Added?
    ensures forall id :: (exists c :: c in changes && c.AgentId() == id) ==>
      (LastFailed(binds + Binds(agents, changes, unbound), id) <==> id in unbound)
  {
    if changes != [] {
      var front, last := changes[..|changes| - 1], changes[|changes| - 1];
      AddedBinds(binds, agents, front, unbound);
      assert changes == front + [last];
      var b := Bind(last.AgentId(), last.AgentId() !in unbound);
      assert last in changes && binds + Binds(agents, changes, unbound) == binds + Binds(agents, front, unbound) + [b];
      forall id | exists c :: c in changes && c.AgentId() == id
        ensures LastFailed(binds + Binds(agents, changes, unbound), id) <==> id in unbound
      {
        LastFailedNext(binds + Binds(agents, front, unbound), b, id);
      }
    }
  }

  lemma {:induction false} AddedAll(pulls: set<string>, agents: Agents, changes: seq<Change>, unbound: set<string>)
    requires forall c :: c in changes ==> c.Added?
    ensures forall id :: id in PullsAfter(pulls, agents, changes, unbound) <==>
      id in pulls || (id !in unbound && exists c :: c in changes && c.AgentId() == id)
  {
    if changes != [] {
      var front, last := changes[..|changes| - 1], changes[|changes| - 1];
      assert changes == front + [last] && last in changes;
      AddedAll(pulls, agents, front, unbound);
    }
  }

  // ---- following the registry ----------------------------------------------

  /** The changes account for the step from one map to the next, one per agent. */
  ghost predicate Explains(was: Agents, now: Agents, cs: seq<Change>) {
    && OneEach(cs)
    && (forall i :: 0 <= i < |cs| ==> Fits(now, cs[i]))
    && (forall id :: (id in was || id in now) && !(id in was && id in now && was[id].enabled == now[id].enabled) ==>
          exists i :: 0 <= i < |cs| && cs[i].AgentId() == id)
  }

  predicate Fits(now: Agents, c: Change) {
    if c.Removed? then c.id !in now
    else c.config.id in now && now[c.config.id] == c.config && (c.Disabled? ==> !c.config.enabled)
  }

  /** Enabled agents are pulled, but for those whose last bind failed; pulled agents
      are registered. */
  ghost predicate Covered(m: Agents, pulls: set<string>, binds: seq<Bind>) {
    && pulls <= m.Keys
    && (forall id :: id in m && m[id].enabled ==> id in pulls || LastFailed(binds, id))
  }

  lemma {:induction false} BindsElsewhere(binds: seq<Bind>, agents: Agents, cs: seq<Change>, unbound: set<string>, id: string)
    requires forall i :: 0 <= i < |cs| ==> cs[i].AgentId() != id
    ensures LastFailed(binds + Binds(agents, cs, unbound), id) <==> LastFailed(binds, id)
  {
    if cs == [] {
      assert binds + [] == binds;
    } else {
      var front, last := cs[..|cs| - 1], cs[|cs| - 1];
      BindsElsewhere(binds, agents, front, unbound, id);
      OneBind(binds + Binds(agents, front, unbound), agents, last, unbound, id);
      assert binds + Binds(agents, cs, unbound) == binds + Binds(agents, front, unbound) + BindOf(agents, last, unbound);
    }
  }

  lemma OneBind(binds: seq<Bind>, agents: Agents, c: Change, unbound: set<string>, id: string)
    ensures LastFailed(binds + BindOf(agents, c, unbound), id) <==>
      if c.AgentId() == id && BindOf(agents, c, unbound) != [] then id in unbound else LastFailed(binds, id)
  {
    if BindOf(agents, c, unbound) == [] {
      assert binds + [] == binds;
    } else {
      LastFailedNext(binds, Bind(c.AgentId(), c.AgentId() !in unbound), id);
    }
  }

  /** An agent's own change decides whether its last bind has failed. */
  lemma {:induction false} BindsThere(binds: seq<Bind>, agents: Agents, cs: seq<Change>, unbound: set<string>, i: nat)
    requires OneEach(cs) && i < |cs| && BindOf(agents, cs[i], unbound) != []
    ensures LastFailed(binds + Binds(agents, cs, unbound), cs[i].AgentId()) <==> cs[i].AgentId() in unbound
  {
    var front, last := cs[..|cs| - 1], cs[|cs| - 1];
    assert binds + Binds(agents, cs, unbound) == binds + Binds(agents, front, unbound) + BindOf(agents, last, unbound);
    OneBind(binds + Binds(agents, front, unbound), agents, last, unbound, cs[i].AgentId());
    if i < |cs| - 1 {
      BindsThere(binds, agents, front, unbound, i);
    }
  }

  lemma {:induction false} PullsElsewhere(pulls: set<string>, agents: Agents, cs: seq<Change>, unbound: set<string>, id: string)
    requires forall i :: 0 <= i < |cs| ==> cs[i].AgentId() != id
    ensures id in PullsAfter(pulls, agents, cs, unbound) <==> id in pulls
  {
    if cs != [] {
      PullsElsewhere(pulls, agents, cs[..|cs| - 1], unbound, id);
    }
  }

  /** One agent's fate is decided by its own change. */
  lemma {:induction false} PullsThere(pulls: set<string>, agents: Agents, cs: seq<Change>, unbound: set<string>, i: nat)
    requires OneEach(cs) && i < |cs|
    ensures var id := cs[i].AgentId();
      id in PullsAfter(pulls, agents, cs, unbound) <==> id in PullsStep(pulls, agents, cs[i], unbound)
  {
    var front, last := cs[..|cs| - 1], cs[|cs| - 1];
    if i < |cs| - 1 {
      PullsThere(pulls, agents, front, unbound, i);
    } else {
      PullsElsewhere(pulls, agents, front, unbound, last.AgentId());
    }
  }

  /** A change after which its agent is not to be pulled. */
  predicate Stops(agents: Agents, c: Change) {
    || c.Disabled? || c.Removed?
    || (c.Updated? && !(c.config.id in agents && agents[c.config.id].enabled))
  }

  /** And then it is not. */
  lemma StoppedAfter(pulls: set<string>, agents: Agents, cs: seq<Change>, unbound: set<string>, i: nat)
    requires OneEach(cs) && i < |cs| && Stops(agents, cs[i])
    ensures cs[i].AgentId() !in PullsAfter(pulls, agents, cs, unbound)
  {
    PullsThere(pulls, agents, cs, unbound, i);
  }

  lemma PullsFollow(was: Agents, now: Agents, pulls: set<string>, binds: seq<Bind>, cs: seq<Change>, unbound: set<string>)
    requires Explains(was, now, cs) && Covered(was, pulls, binds)
    ensures Covered(now, PullsAfter(pulls, now, cs, unbound), binds + Binds(now, cs, unbound))
  {
    var after := PullsAfter(pulls, now, cs, unbound);
    forall id
      ensures id in after ==> id in now
      ensures id in now && now[id].enabled ==> id in after || LastFailed(binds + Binds(now, cs, unbound), id)
    {
      if i :| 0 <= i < |cs| && cs[i].AgentId() == id {
        PullsThere(pulls, now, cs, unbound, i);
        assert Fits(now, cs[i]);
        if id in now && now[id].enabled {
          BindsThere(binds, now, cs, unbound, i);
        }
      } else {
        PullsElsewhere(pulls, now, cs, unbound, id);
        BindsElsewhere(binds, now, cs, unbound, id);
      }
    }
  }

  lemma DiffExplains(was: Agents, now: Agents, cs: seq<Change>)
    requires Filed(was) && Filed(now) && IsDiff(was, now, cs)
    ensures Explains(was, now, cs)
  {
    forall i, j | 0 <= i < j < |cs|
      ensures cs[i].AgentId() != cs[j].AgentId()
    {
      LessIrreflexive(cs[i].AgentId());
    }
    forall i | 0 <= i < |cs|
      ensures Fits(now, cs[i])
    {
      assert ChangeOf(was, now, cs[i].AgentId()) == Some(cs[i]);
    }
    forall id | (id in was || id in now) && !(id in was && id in now && was[id].enabled == now[id].enabled)
      ensures exists i :: 0 <= i < |cs| && cs[i].AgentId() == id
    {
      ChangeNamesId(was, now, id);
      var c := ChangeOf(was, now, id).value;
      assert c in cs;
      var i :| 0 <= i < |cs| && cs[i] == c;
    }
  }

  lemma OneExplains(was: Agents, c: Change)
    requires !c.Removed? ==> !c.Disabled? && !c.Enabled?
    ensures Explains(was, PatchOne(was, c), [c])
  {
    var now := PatchOne(was, c);
    forall id | (id in was || id in now) && !(id in was && id in now && was[id].enabled == now[id].enabled)
      ensures exists i :: 0 <= i < |[c]| && [c][i].AgentId() == id
    {
      assert [c][0].AgentId() == id;
    }
  }
}
