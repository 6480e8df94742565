/** The single apply path: registry, then dispatcher, then relay. */
module Control {
  import opened Common
  import Protocol
  import opened AgentIds
  import opened ReloadDiff
  import opened Registries
  import opened Relays
  import opened DispatcherObject

  /** What the dispatcher sees of the registry they share. */
  function View(agents: Agents): map<string, Protocol.Config> {
    map id | id in agents :: Protocol.Config(agents[id].conc, agents[id].enabled)
  }

  function Ids(changes: seq<Change>): seq<string> {
    seq(|changes|, i requires 0 <= i < |changes| => changes[i].AgentId())
  }

  function ConfigOf(c: Change): Option<Protocol.Config> {
    if c.Removed? then None else Some(Protocol.Config(c.config.conc, c.config.enabled))
  }

  datatype Command =
    | Register(config: AgentConfig)
    | Update(config: AgentConfig)
    | Unregister(id: string)
    | Reload(unreadable: set<string>)
    | Edit(dirExists: bool, files: Files)
    | Kill
    | Boot(unreadable: set<string>)

  /** One step of a history: a control request, an edit by hand, a kill or a start of
      the daemon, with the process id in temporary names, a failure of a file step or a
      crash before one, and the binds that fail. */
  datatype Request = Request(command: Command, pid: string, point: Point, unbound: set<string>)
  {
    /** Ids in requests have been parsed, and a directory that is not there has no files. */
    ghost predicate WellFormed() {
      && (command.Register? || command.Update? ==> IsId(command.config.id))
      && (command.Edit? && !command.dirExists ==> command.files == map[])
    }

    /** Every file can be read and no step fails. */
    predicate Smooth() {
      point.Clean? && (command.Reload? || command.Boot? ==> command.unreadable == {})
    }
  }

  /** What a command asks for can be done. */
  ghost predicate Admissible(running: bool, m: Agents, files: Files, command: Command) {
    match command
    case Register(c) => running && c.Validates() && c.id !in m
    case Update(c) => running && c.Validates() && c.id in m
    case Unregister(id) => running && id in m && FileName(id) in files
    case Reload(_) => running && Loadable(files)
    case Edit(_, _) => true
    case Kill => running
    case Boot(_) => !running && Loadable(files)
  }

  class DaemonHandle {
    const registry: Registry
    const dispatcher: Dispatcher
    const relay: Relay
    var running: bool

    /** The dispatcher's state is one its protocol reaches, under the registry's
        configurations.  What the directory holds does not matter. */
    ghost predicate Joined()
      reads this, registry, dispatcher, relay
    {
      && relay.registry == registry
      && registry.Valid() && dispatcher.Valid() && relay.Valid()
      && dispatcher.registry == View(registry.agents)
    }

    /** While the daemon runs the pull loops follow the registry, at most one for each
        agent; while it does not there are none, and nothing is in memory. */
    ghost predicate Valid()
      reads this, registry, dispatcher, relay
    {
      && Joined()
      && if running then Covered(registry.agents, relay.pulls.Keys, relay.binds)
         else relay.pulls == map[] && registry.agents == map[]
    }

    /** No loop pulls for the agent, filed or alive. */
    ghost predicate Unpulled(id: string)
      reads relay
    {
      id !in relay.pulls && forall l :: l in relay.live ==> relay.live[l] != id
    }

    /** A daemon that has not been started, over any directory. */
    constructor (registry: Registry, dispatcher: Dispatcher, relay: Relay)
      requires registry.Valid() && dispatcher.Valid() && relay.Valid() && relay.registry == registry
      requires registry.agents == map[] && dispatcher.registry == map[] && relay.pulls == map[]
      ensures this.registry == registry && this.dispatcher == dispatcher && this.relay == relay
      ensures Valid() && !running
    {
      this.registry, this.dispatcher, this.relay, running := registry, dispatcher, relay, false;
    }

    /** The process is killed, wherever it stands: memory, entries and loops are gone,
        and the directory is left as it is. */
    method Die()
      requires relay.registry == registry && registry.Valid() && dispatcher.Valid() && relay.Valid()
      modifies this`running, registry`agents, dispatcher, relay
      ensures Valid() && !running && relay.binds == old(relay.binds)
    {
      hide dispatcher.Valid, relay.Valid, registry.Valid;
      running := false;
      registry.Forget();
      dispatcher.Die();
      dispatcher.Unconfigure();
      relay.StopAll();
    }

    /** Startup: load the directory, whatever was edited there, and pull for every
        enabled agent. */
    method Start(unreadable: set<string>, unbound: set<string>, p: Point) returns (ok: bool)
      requires Valid() && !running
      modifies this`running, registry, dispatcher, relay
      ensures Valid() && running == ok
      ensures old(relay.binds) <= relay.binds && FailedIn(relay.binds[|old(relay.binds)|..], unbound)
      ensures !ok ==> registry.agents == old(registry.agents) && relay.pulls == old(relay.pulls)
                      && dispatcher.states == old(dispatcher.states)
      ensures ok ==> registry.Agree() && SameAgentFiles(old(registry.files), registry.files) && Loadable(old(registry.files))
      ensures ok ==> forall id :: id in relay.pulls <==>
        id in registry.agents && registry.agents[id].enabled && id !in unbound
      ensures unreadable == {} && p.Clean? ==> (ok <==> Loadable(old(registry.files)))
    {
      hide Gives, Loadable, SameAgentFiles, Covered, Explains, View, PullsAfter, IsDiff, dispatcher.Valid, relay.Valid;
      ghost var was := registry.agents;
      var loaded := registry.Reload(unreadable, {}, p);
      if !loaded.Got? {
        return false;
      }
      DiffExplains(was, registry.agents, loaded.value);
      Reconfigure(loaded.value, was);
      dispatcher.Run();
      relay.SyncConsumers(unbound);
      running := true;
      return true;
    }

    /** Registry diff to dispatcher state to relay consumers, with dispatch running
        before, in between and after. */
    method Apply(changes: seq<Change>, unbound: set<string>, ghost was: Agents)
      requires relay.registry == registry && registry.Valid() && dispatcher.Valid() && relay.Valid()
      requires dispatcher.registry == View(registry.agents) && running
      requires Explains(was, registry.agents, changes) && Covered(was, relay.pulls.Keys, relay.binds)
      modifies dispatcher, relay
      ensures Valid() && relay.binds == old(relay.binds) + Binds(registry.agents, changes, unbound)
      ensures old(dispatcher.trace) <= dispatcher.trace
      ensures forall id :: id in Ids(changes) ==>
        Protocol.ApplyChange(id) in dispatcher.trace[|old(dispatcher.trace)|..]
      ensures relay.pulls.Keys == PullsAfter(old(relay.pulls.Keys), registry.agents, changes, unbound)
      ensures forall i :: 0 <= i < |changes| && Stops(registry.agents, changes[i]) ==> Unpulled(changes[i].AgentId())
    {
      hide dispatcher.Valid;
      PullsFollow(was, registry.agents, relay.pulls.Keys, relay.binds, changes, unbound);
      ghost var start := |dispatcher.trace|;
      dispatcher.Run();
      ghost var middle := dispatcher.trace;
      dispatcher.ApplyChanges(Ids(changes));
      assert dispatcher.trace == middle + Drops(Ids(changes));
      forall id | id in Ids(changes)
        ensures Protocol.ApplyChange(id) in dispatcher.trace[start..]
      {
        DropsEach(Ids(changes), id);
        InTail(middle, Drops(Ids(changes)), start, Protocol.ApplyChange(id));
      }
      ghost var dropped := dispatcher.trace;
      dispatcher.Run();
      StillIn(dropped, dispatcher.trace, start);
      relay.ApplyChanges(changes, unbound);
    }

    /** One change, already made in the registry, taken to the other two. */
    method Propagate(c: Change, unbound: set<string>, ghost was: Agents)
      requires relay.registry == registry && registry.Valid() && dispatcher.Valid() && relay.Valid()
      requires registry.agents == PatchOne(was, c) && dispatcher.registry == View(was) && running
      requires c.Added? || c.Updated? || c.Removed?
      requires !c.Removed? ==> c.config.Validates()
      requires Covered(was, relay.pulls.Keys, relay.binds)
      modifies dispatcher, relay
      ensures Valid() && old(relay.binds) <= relay.binds && FailedIn(relay.binds[|old(relay.binds)|..], unbound)
      ensures Stops(registry.agents, c) ==> Unpulled(c.AgentId())
    {
      hide Gives, Sane, Covered, Explains, PatchOne, View, PullsAfter, dispatcher.Valid, relay.Valid;
      OneExplains(was, c);
      ViewPatch(was, c);
      dispatcher.SetConfig(c.AgentId(), ConfigOf(c));
      Apply([c], unbound, was);
      BindsFailed(registry.agents, [c], unbound);
      assert [c][0] == c;
    }

    /** One request, with any failure of a file or bind step in it or a crash before a
        file step, whatever the directory holds.  An error changes nothing in memory,
        and a crash leaves a daemon that is down. */
    method Handle(r: Request) returns (ok: bool)
      requires Valid() && r.WellFormed()
      modifies this`running, registry, dispatcher, relay
      ensures Valid() && old(relay.binds) <= relay.binds && FailedIn(relay.binds[|old(relay.binds)|..], r.unbound)
      ensures (!ok && running == old(running)) || r.command.Edit? ==>
        && registry.agents == old(registry.agents) && relay.pulls == old(relay.pulls)
        && dispatcher.states == old(dispatcher.states)
      ensures !ok && running != old(running) ==> r.point.CrashAt? && !running
      ensures ok ==> Admissible(old(running), old(registry.agents), old(registry.files), r.command)
      ensures r.Smooth() ==> (ok <==> Admissible(old(running), old(registry.agents), old(registry.files), r.command))
      ensures ok ==> (running <==> r.command.Boot? || (old(running) && !r.command.Kill?))
      ensures ok ==>
        && (r.command.Update? && !r.command.config.enabled ==> Unpulled(r.command.config.id))
        && (r.command.Unregister? ==> Unpulled(r.command.id))
      ensures ok ==>
        match r.command
        case Register(c) => registry.agents == old(registry.agents)[c.id := c]
        case Update(c) => registry.agents == old(registry.agents)[c.id := c]
        case Unregister(id) => registry.agents == old(registry.agents) - {id}
        case Reload(_) => registry.Agree() && SameAgentFiles(old(registry.files), registry.files)
        case Edit(_, files) => registry.files == files
        case Kill => registry.files == old(registry.files)
        case Boot(_) => registry.Agree() && SameAgentFiles(old(registry.files), registry.files)
    {
      hide Gives, Sane, Loadable, SameAgentFiles, Covered, Explains, View, PullsAfter, IsDiff, dispatcher.Valid, relay.Valid;
      match r.command {
        case Edit(dirExists, files) =>
          registry.OutsideEdit(dirExists, files);
          return true;
        case Boot(unreadable) =>
          if running {
            return false;
          }
          ok := Start(unreadable, r.unbound, r.point);
          return ok;
        case _ =>
      }
      if !running {
        return false;
      }
      if r.command.Kill? {
        Die();
        return true;
      }
      var status := Serviced(r);
      if status.Crashed? {
        Die();
      }
      return status.Done?;
    }

    /** A control request to a daemon that runs. */
    method Serviced(r: Request) returns (status: Status)
      requires Valid() && running && r.WellFormed()
      requires r.command.Register? || r.command.Update? || r.command.Unregister? || r.command.Reload?
      modifies registry, dispatcher, relay
      ensures relay.registry == registry && registry.Valid() && dispatcher.Valid() && relay.Valid()
      ensures old(relay.binds) <= relay.binds && FailedIn(relay.binds[|old(relay.binds)|..], r.unbound)
      ensures status.Crashed? ==> r.point.CrashAt?
      ensures !status.Crashed? ==> Valid()
      ensures status.Failed? ==>
        && registry.agents == old(registry.agents) && relay.pulls == old(relay.pulls)
        && dispatcher.states == old(dispatcher.states)
      ensures status.Done? ==> Admissible(true, old(registry.agents), old(registry.files), r.command)
      ensures r.Smooth() ==> (status.Done? <==> Admissible(true, old(registry.agents), old(registry.files), r.command))
      ensures status.Done? ==>
        && (r.command.Update? && !r.command.config.enabled ==> Unpulled(r.command.config.id))
        && (r.command.Unregister? ==> Unpulled(r.command.id))
      ensures status.Done? ==>
        match r.command
        case Register(c) => registry.agents == old(registry.agents)[c.id := c]
        case Update(c) => registry.agents == old(registry.agents)[c.id := c]
        case Unregister(id) => registry.agents == old(registry.agents) - {id}
        case Reload(_) => registry.Agree() && SameAgentFiles(old(registry.files), registry.files)
        case _ => true
    {
      hide Gives, Sane, Loadable, SameAgentFiles, Covered, Explains, View, PullsAfter, IsDiff, dispatcher.Valid, relay.Valid;
      ghost var was := registry.agents;
      match r.command {
        case Register(c) =>
          status := registry.Register(c, r.pid, r.point);
          if status.Done? {
            Propagate(Added(c), r.unbound, was);
          }
        case Update(c) =>
          status := registry.Update(c, r.pid, r.point);
          if status.Done? {
            Propagate(Updated(c), r.unbound, was);
          }
        case Unregister(id) =>
          status := registry.Unregister(id, r.point);
          if status.Done? {
            Propagate(Removed(id), r.unbound, was);
          }
        case Reload(unreadable) =>
          var changes := ReloadFrom(unreadable, r.unbound, r.point);
          status := if changes.Got? then Done else if changes.Died? then Crashed else Failed;
      }
    }

    /** Reload, whatever was edited in the directory meanwhile. */
    method ReloadFrom(unreadable: set<string>, unbound: set<string>, p: Point) returns (changes: Reading<seq<Change>>)
      requires Valid() && running
      modifies registry, dispatcher, relay
      ensures Valid() && old(relay.binds) <= relay.binds && FailedIn(relay.binds[|old(relay.binds)|..], unbound)
      ensures changes.Died? ==> p.CrashAt?
      ensures !changes.Got? ==>
        && registry.agents == old(registry.agents) && relay.pulls == old(relay.pulls)
        && dispatcher.states == old(dispatcher.states)
      ensures changes.Got? ==>
        && registry.Agree() && SameAgentFiles(old(registry.files), registry.files)
        && IsDiff(old(registry.agents), registry.agents, changes.value)
        && Loadable(old(registry.files))
      ensures changes.Got? ==>
        forall id | id in old(registry.agents) && old(registry.agents)[id].enabled ::
          (id in registry.agents && registry.agents[id].enabled) || Unpulled(id)
      ensures unreadable == {} && p.Clean? ==> (changes.Got? <==> Loadable(old(registry.files)))
    {
      hide Gives, Loadable, SameAgentFiles, Covered, Explains, View, PullsAfter, IsDiff, dispatcher.Valid, relay.Valid;
      ghost var was := registry.agents;
      changes := registry.Reload(unreadable, {}, p);
      if changes.Got? {
        DiffExplains(was, registry.agents, changes.value);
        Reconfigure(changes.value, was);
        Apply(changes.value, unbound, was);
        BindsFailed(registry.agents, changes.value, unbound);
        forall id | id in was && was[id].enabled && !(id in registry.agents && registry.agents[id].enabled)
          ensures Unpulled(id)
        {
          FlippedStops(was, registry.agents, changes.value, id);
        }
      }
    }

    /** The dispatcher's view of the registry takes on every change. */
    method Reconfigure(cs: seq<Change>, ghost was: Agents)
      requires dispatcher.Valid() && dispatcher.registry == View(was)
      requires forall i :: 0 <= i < |cs| ==> Fits(registry.agents, cs[i])
      requires forall id :: id in registry.agents ==> registry.agents[id].Validates()
      modifies dispatcher`registry, dispatcher`log, dispatcher`trace
      ensures dispatcher.Valid() && dispatcher.registry == View(Patch(was, cs))
    {
      hide View, PatchOne, dispatcher.Valid;
      assert Patch(was, cs[..0]) == was;
      for i := 0 to |cs|
        invariant dispatcher.Valid() && dispatcher.registry == View(Patch(was, cs[..i]))
      {
        assert Fits(registry.agents, cs[i]);
        PatchNext(was, cs, i);
        ViewPatch(Patch(was, cs[..i]), cs[i]);
        dispatcher.SetConfig(cs[i].AgentId(), ConfigOf(cs[i]));
      }
      assert cs[..|cs|] == cs;
    }

    /** What a pull loop would fetch for an agent now: nothing when the agent is
        disabled or gone, even if its loop is still there. */
    method FreeSlots(a: string) returns (free: nat)
      requires Valid()
      modifies dispatcher
      ensures dispatcher.Valid()
      ensures !(a in registry.agents && registry.agents[a].enabled) ==> free == 0 && Valid()
    {
      hide dispatcher.Valid, relay.Valid, registry.Valid, Covered;
      ghost var view := dispatcher.registry;
      assert a in view ==> a in registry.agents && view[a].enabled == registry.agents[a].enabled;
      free := dispatcher.Available(a);
    }

    /** Any sequential history: requests, edits of the directory by hand, reloads that
        succeed or are refused, kills, crashes before any file step, and starts, with
        the dispatch tasks running in between and meanwhile.  While the daemon runs
        every pulled agent is registered, and an enabled agent is not pulled only if the
        last bind tried for it failed; while it does not no loop is alive. */
    method Serve(requests: seq<Request>)
      requires Valid() && relay.binds == []
      requires forall i :: 0 <= i < |requests| ==> requests[i].WellFormed()
      modifies this`running, registry, dispatcher, relay
      ensures Valid()
      ensures running ==> relay.pulls.Keys <= registry.agents.Keys
      ensures running ==> forall id :: id in registry.agents && registry.agents[id].enabled && id !in relay.pulls ==>
        LastFailed(relay.binds, id)
      ensures !running ==> relay.live == map[]
      ensures dispatcher.registry.Keys == registry.agents.Keys && forall id :: id in registry.agents ==>
        && dispatcher.registry[id].conc == registry.agents[id].conc
        && dispatcher.registry[id].enabled == registry.agents[id].enabled
      ensures forall b :: b in relay.binds && !b.ok ==> exists i :: 0 <= i < |requests| && b.id in requests[i].unbound
    {
      for i := 0 to |requests|
        invariant Valid()
        invariant forall b :: b in relay.binds && !b.ok ==> exists j :: 0 <= j < i && b.id in requests[j].unbound
      {
        dispatcher.Run();
        ghost var bound := relay.binds;
        var ok := Handle(requests[i]);
        assert relay.binds == bound + relay.binds[|bound|..];
      }
    }
  }

  lemma InTail(before: seq<Protocol.Action>, more: seq<Protocol.Action>, start: nat, a: Protocol.Action)
    requires start <= |before| && a in more
    ensures a in (before + more)[start..]
  {
    var i :| 0 <= i < |more| && more[i] == a;
    assert (before + more)[start..][|before| + i - start] == a;
  }

  lemma StillIn(before: seq<Protocol.Action>, after: seq<Protocol.Action>, start: nat)
    requires before <= after && start <= |before|
    ensures forall a :: a in before[start..] ==> a in after[start..]
  {
    assert after[start..] == before[start..] + after[|before|..];
  }

  /** An agent that was enabled and no longer is has a change that stops its loop. */
  lemma FlippedStops(was: Agents, now: Agents, cs: seq<Change>, id: string)
    requires Filed(was) && Filed(now) && IsDiff(was, now, cs)
    requires id in was && was[id].enabled && !(id in now && now[id].enabled)
    ensures exists i :: 0 <= i < |cs| && cs[i].AgentId() == id && Stops(now, cs[i])
  {
    var c := if id in now then Disabled(now[id]) else Removed(id);
    ChangesMean(was, now, cs, c);
    var i :| 0 <= i < |cs| && cs[i] == c;
  }

  /** Every bind that failed is of one of these agents. */
  ghost predicate FailedIn(binds: seq<Bind>, unbound: set<string>) {
    forall b :: b in binds && !b.ok ==> b.id in unbound
  }

  lemma ViewPatch(m: Agents, c: Change)
    ensures var v := View(m);
      View(PatchOne(m, c)) == if ConfigOf(c).Some? then v[c.AgentId() := ConfigOf(c).value] else v - {c.AgentId()}
  {
  }

  lemma PatchNext(m: Agents, cs: seq<Change>, i: nat)
    requires i < |cs|
    ensures Patch(m, cs[..i + 1]) == PatchOne(Patch(m, cs[..i]), cs[i])
  {
    PatchAppend(m, cs[..i], [cs[i]]);
    assert cs[..i + 1] == cs[..i] + [cs[i]];
    assert Patch(Patch(m, cs[..i]), [cs[i]]) == PatchOne(Patch(m, cs[..i]), cs[i]);
  }
}
