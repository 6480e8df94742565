/** The registry: a directory of files and the map that must agree with it. */
module Registries {
  import opened Common
  import opened Text
  import opened AgentIds
  import opened ReloadDiff

  /** What reading a file gives: a configuration, or nothing that parses. */
  datatype Content = Toml(config: AgentConfig) | Malformed

  type Files = map<string, Content>

  /** Whether an operation's file steps all succeed, one of them fails, or the
      process dies just before one of them. */
  datatype Point = Clean | FailAt(step: nat) | CrashAt(step: nat)

  datatype Status = Done | Failed | Crashed

  /** What reading the directory comes to. */
  datatype Reading<+T> = Got(value: T) | Refused | Died

  predicate Considered(name: string) { !StaleTemp(name) && IsToml(name) }

  ghost predicate GoodFile(name: string, c: Content) {
    c.Toml? && IsId(c.config.id) && c.config.Validates() && Stem(name) == c.config.id
  }

  /** Loading this directory gives exactly this map. */
  ghost predicate Gives(files: Files, agents: Agents) {
    && (forall n :: n in files && Considered(n) ==> GoodFile(n, files[n]))
    && (forall id :: id in agents <==> FileName(id) in files && Considered(FileName(id)))
    && (forall id :: id in agents ==> files[FileName(id)] == Toml(agents[id]))
  }

  /** Every file that a load considers is good. */
  ghost predicate Loadable(files: Files) {
    forall n :: n in files && Considered(n) ==> GoodFile(n, files[n])
  }

  /** Configurations are filed under their own ids, which are ids, and are valid. */
  ghost predicate Sane(m: Agents) {
    forall id :: id in m ==> m[id].id == id && IsId(id) && m[id].Validates()
  }

  /** The directories differ in stale temporaries at most. */
  ghost predicate SameAgentFiles(a: Files, b: Files) {
    forall n :: !StaleTemp(n) ==> (n in a <==> n in b) && (n in a ==> a[n] == b[n])
  }

  lemma GivesOnlyAgentFiles(a: Files, b: Files, m: Agents)
    requires SameAgentFiles(a, b) && Gives(a, m)
    ensures Gives(b, m)
  {
  }

  lemma GivesLoadable(before: Files, files: Files, m: Agents)
    requires SameAgentFiles(before, files) && Gives(files, m)
    ensures Loadable(before)
  {
  }

  /** What a directory loads to is determined. */
  lemma GivesUnique(files: Files, m: Agents, n: Agents)
    requires Gives(files, m) && Gives(files, n)
    ensures m == n
  {
    hide FileName, Considered, GoodFile;
    forall id
      ensures id in m <==> id in n
      ensures id in m ==> m[id] == n[id]
    {
      assert id in m ==> files[FileName(id)] == Toml(m[id]);
      assert id in n ==> files[FileName(id)] == Toml(n[id]);
    }
  }

  lemma TomlNameIsStem(name: string)
    requires IsToml(name)
    ensures FileName(Stem(name)) == name && Stem(name) != ""
  {
    var d := FindLast(name, '.');
    assert name == name[..d.at] + [name[d.at]] + name[d.at + 1..];
  }

  lemma FileNameStem(id: string)
    requires Considered(FileName(id))
    ensures Stem(FileName(id)) == id
  {
    TomlNameIsStem(FileName(id));
    NamesInjective(Stem(FileName(id)), id);
  }

  lemma GivenSane(files: Files, m: Agents)
    requires Gives(files, m)
    ensures Sane(m) && Filed(m)
  {
    forall id | id in m
      ensures m[id].id == id && IsId(id) && m[id].Validates()
    {
      assert GoodFile(FileName(id), files[FileName(id)]);
      FileNameStem(id);
    }
  }

  lemma GivenFile(files: Files, m: Agents, id: string)
    requires Gives(files, m) && id in m
    ensures FileName(id) in files
  {
  }

  /** Putting one agent's file in place puts that agent in the map. */
  lemma GivesWritten(files: Files, m: Agents, c: AgentConfig)
    requires Gives(files, m) && IsId(c.id) && c.Validates()
    ensures Gives(files[FileName(c.id) := Toml(c)], m[c.id := c])
  {
    var files', m' := files[FileName(c.id) := Toml(c)], m[c.id := c];
    FileNamesRecognised(c.id, "");
    forall id
      ensures id in m' <==> FileName(id) in files' && Considered(FileName(id))
      ensures id in m' ==> files'[FileName(id)] == Toml(m'[id])
    {
      NamesInjective(id, c.id);
    }
  }

  lemma GivesRemoved(files: Files, m: Agents, id: string)
    requires Gives(files, m) && id in m
    ensures Gives(files - {FileName(id)}, m - {id})
  {
    hide FileName, Considered, GoodFile;
    forall other
      ensures other in m - {id} <==> FileName(other) in files - {FileName(id)} && Considered(FileName(other))
    {
      NamesInjective(other, id);
    }
  }

  class Registry {
    var dirExists: bool
    var files: Files
    var agents: Agents

    /** What memory holds is sound, whatever the directory holds. */
    ghost predicate Valid()
      reads this
    {
      (!dirExists ==> files == map[]) && Sane(agents)
    }

    /** The mutation lock is free, and disk and memory agree. */
    ghost predicate Agree()
      reads this
    {
      (!dirExists ==> files == map[]) && Gives(files, agents)
    }

    lemma AgreeValid()
      requires Agree()
      ensures Valid()
    {
      GivenSane(files, agents);
    }

    /** After a crash the directory still loads, to one of two maps. */
    ghost predicate Survives(before: Agents, after: Agents)
      reads this
    {
      (!dirExists ==> files == map[]) && (Gives(files, before) || Gives(files, after))
    }

    constructor ()
      ensures Valid() && Agree() && agents == map[]
    {
      dirExists, files, agents := false, map[], map[];
    }

    function Get(id: string): Option<AgentConfig>
      reads this
    {
      if id in agents then Some(agents[id]) else None
    }

    /** Write a temporary, sync it, and rename it over the agent's file.  A failure
        leaves every agent file as it was; a crash leaves the old file or the new. */
    method Persist(c: AgentConfig, pid: string, p: Point) returns (r: Status)
      requires IsId(c.id) && (!dirExists ==> files == map[])
      modifies this`dirExists, this`files
      ensures !dirExists ==> files == map[]
      ensures r.Done? ==> SameAgentFiles(old(files)[FileName(c.id) := Toml(c)], files)
      ensures r.Failed? ==> SameAgentFiles(old(files), files)
      ensures SameAgentFiles(old(files), files) || SameAgentFiles(old(files)[FileName(c.id) := Toml(c)], files)
      ensures p.Clean? ==> r.Done?
      ensures r.Crashed? ==> p.CrashAt?
    {
      var final, tmp := FileName(c.id), TempName(c.id, pid);
      FileNamesRecognised(c.id, pid);
      if p == CrashAt(0) {
        return Crashed;
      }
      if !dirExists {
        if p == FailAt(0) {
          return Failed;
        }
        dirExists := true;
      }
      if p == CrashAt(1) {
        return Crashed;
      }
      if p == FailAt(1) {
        return Failed;
      }
      files := files[tmp := Malformed];
      if p == CrashAt(2) {
        return Crashed;
      }
      if p == FailAt(2) {
        return Failed;
      }
      files := files[tmp := Toml(c)];
      if p == CrashAt(3) {
        return Crashed;
      }
      if p == FailAt(3) {
        return Failed;
      }
      if p == CrashAt(4) {
        return Crashed;
      }
      if p == FailAt(4) {
        return Failed;
      }
      files := (files - {tmp})[final := Toml(c)];
      if p == CrashAt(5) {
        return Crashed;
      }
      return Done;
    }

    /** Persist, then mutate: what a mutation that writes a file leaves behind. */
    method Write(c: AgentConfig, pid: string, p: Point) returns (r: Status)
      requires Valid() && IsId(c.id) && c.Validates()
      modifies this
      ensures Valid()
      ensures agents == if r.Done? then old(agents)[c.id := c] else old(agents)
      ensures old(Agree()) ==> if r.Crashed? then Survives(old(agents), old(agents)[c.id := c]) else Agree()
      ensures p.Clean? ==> r.Done?
      ensures r.Crashed? ==> p.CrashAt?
    {
      hide Gives, SameAgentFiles;
      ghost var before := files;
      r := Persist(c, pid, p);
      if Gives(before, agents) {
        GivesWritten(before, agents, c);
        if SameAgentFiles(before, files) {
          GivesOnlyAgentFiles(before, files, agents);
        }
        if SameAgentFiles(before[FileName(c.id) := Toml(c)], files) {
          GivesOnlyAgentFiles(before[FileName(c.id) := Toml(c)], files, agents[c.id := c]);
        }
      }
      if r.Done? {
        agents := agents[c.id := c];
      }
    }

    /** Register a new agent.  It is an error when the configuration is not valid
        or the agent exists; then nothing changes, on disk or in memory. */
    method Register(c: AgentConfig, pid: string, p: Point) returns (r: Status)
      requires Valid() && IsId(c.id)
      modifies this
      ensures Valid()
      ensures r.Done? ==> c.Validates() && c.id !in old(agents)
      ensures agents == if r.Done? then old(agents)[c.id := c] else old(agents)
      ensures old(Agree()) ==> if r.Crashed? then Survives(old(agents), old(agents)[c.id := c]) else Agree()
      ensures p.Clean? ==> (r.Done? <==> c.Validates() && c.id !in old(agents))
      ensures r.Crashed? ==> p.CrashAt?
      ensures !(c.Validates() && c.id !in old(agents)) ==> files == old(files)
    {
      if !c.Validates() {
        return Failed;
      }
      if Get(c.id).Some? {
        return Failed;
      }
      r := Write(c, pid, p);
    }

    /** Replace an existing agent's configuration. */
    method Update(c: AgentConfig, pid: string, p: Point) returns (r: Status)
      requires Valid() && IsId(c.id)
      modifies this
      ensures Valid()
      ensures r.Done? ==> c.Validates() && c.id in old(agents)
      ensures agents == if r.Done? then old(agents)[c.id := c] else old(agents)
      ensures old(Agree()) ==> if r.Crashed? then Survives(old(agents), old(agents)[c.id := c]) else Agree()
      ensures p.Clean? ==> (r.Done? <==> c.Validates() && c.id in old(agents))
      ensures r.Crashed? ==> p.CrashAt?
      ensures !(c.Validates() && c.id in old(agents)) ==> files == old(files)
    {
      if !c.Validates() {
        return Failed;
      }
      if Get(c.id).None? {
        return Failed;
      }
      r := Write(c, pid, p);
    }

    /** Toggle `enabled`; nothing is written when it has that value already. */
    method SetEnabled(id: string, enabled: bool, pid: string, p: Point) returns (r: Status)
      requires Valid()
      modifies this
      ensures Valid()
      ensures id !in old(agents) ==> r.Failed?
      ensures r.Done? && old(agents)[id].enabled == enabled ==> files == old(files)
      ensures agents == if r.Done? then old(agents)[id := old(agents)[id].(enabled := enabled)] else old(agents)
      ensures old(Agree()) ==>
        if r.Crashed? then Survives(old(agents), old(agents)[id := old(agents)[id].(enabled := enabled)]) else Agree()
      ensures p.Clean? && id in old(agents) ==> r.Done?
      ensures r.Crashed? ==> p.CrashAt?
    {
      hide Gives;
      if Get(id).None? {
        return Failed;
      }
      var existing := agents[id];
      if existing.enabled == enabled {
        assert existing == existing.(enabled := enabled);
        return Done;
      }
      r := Write(existing.(enabled := enabled), pid, p);
    }

    /** Delete the agent's file, then forget it.  When the file is not there to be
        deleted the agent stays. */
    method Unregister(id: string, p: Point) returns (r: Status)
      requires Valid()
      modifies this
      ensures Valid()
      ensures r.Done? ==> id in old(agents) && FileName(id) in old(files) && files == old(files) - {FileName(id)}
      ensures r.Failed? ==> files == old(files)
      ensures agents == if r.Done? then old(agents) - {id} else old(agents)
      ensures old(Agree()) ==> if r.Crashed? then Survives(old(agents), old(agents) - {id}) else Agree()
      ensures p.Clean? ==> (r.Done? <==> id in old(agents) && FileName(id) in old(files))
      ensures p.Clean? && old(Agree()) ==> (r.Done? <==> id in old(agents))
      ensures r.Crashed? ==> p.CrashAt?
    {
      hide Gives;
      if Get(id).None? {
        return Failed;
      }
      if p == CrashAt(0) {
        return Crashed;
      }
      if Gives(files, agents) {
        GivenFile(files, agents, id);
      }
      if p == FailAt(0) || FileName(id) !in files {
        return Failed;
      }
      if Gives(files, agents) {
        GivesRemoved(files, agents, id);
      }
      files := files - {FileName(id)};
      if p == CrashAt(1) {
        return Crashed;
      }
      agents := agents - {id};
      return Done;
    }

    /** Memory is gone. */
    method Forget()
      requires Valid()
      modifies this`agents
      ensures Valid() && agents == map[]
    {
      agents := map[];
    }

    /** Someone edits the directory by hand. */
    method OutsideEdit(dirExists: bool, files: Files)
      requires !dirExists ==> files == map[]
      modifies this`dirExists, this`files
      ensures this.dirExists == dirExists && this.files == files
    {
      this.dirExists, this.files := dirExists, files;
    }

    /** Parse one file, and check what it says apart from its name. */
    method ReadAgentFile(name: string, unreadable: set<string>) returns (r: Option<AgentConfig>)
      requires name in files
      ensures r.Some? ==> files[name] == Toml(r.value)
      ensures r.Some? <==>
        name !in unreadable && files[name].Toml? && IsId(files[name].config.id) && files[name].config.Validates()
    {
      if name in unreadable {
        return None;
      }
      var content := files[name];
      if content.Malformed? {
        return None;
      }
      var c := content.config;
      var id := Parse(c.id);
      if id.Err? || !c.Validates() {
        return None;
      }
      return Some(c);
    }

    /** Read every file of the directory, in the order the system lists them.
        Stale temporaries are swept, as far as they can be removed.  Listing the
        directory is step 0, and its entries are the steps from 1 on. */
    method Load(order: seq<string>, unreadable: set<string>, stuck: set<string>, p: Point) returns (r: Reading<Agents>)
      requires forall n :: n in order <==> n in files
      requires !dirExists ==> files == map[]
      modifies this`files
      ensures SameAgentFiles(old(files), files) && (!dirExists ==> files == map[])
      ensures r.Got? ==> Gives(files, r.value) && forall n :: n in files && StaleTemp(n) ==> n in stuck
      ensures r.Refused? && !p.FailAt? ==>
        exists n :: n in old(files) && Considered(n) && (n in unreadable || !GoodFile(n, old(files)[n]))
      ensures r.Died? ==> p.CrashAt?
    {
      if !dirExists {
        return Got(map[]);
      }
      if p == CrashAt(0) {
        return Died;
      }
      if p == FailAt(0) {
        return Refused;
      }
      var m: Agents := map[];
      for i := 0 to |order|
        invariant SameAgentFiles(old(files), files)
        invariant forall n :: n in files && StaleTemp(n) && n in order[..i] ==> n in stuck
        invariant forall n :: n in files ==> n in order
        invariant forall n :: n in order[..i] && Considered(n) ==> n in files && GoodFile(n, files[n])
        invariant forall id :: id in m <==> FileName(id) in order[..i] && Considered(FileName(id))
        invariant forall id :: id in m ==> FileName(id) in files && files[FileName(id)] == Toml(m[id])
      {
        hide FindLast, FileName, IsToml, Stem, StaleTemp;
        var name := order[i];
        assert order[..i + 1] == order[..i] + [name];
        if p == CrashAt(i + 1) {
          return Died;
        }
        if p == FailAt(i + 1) {
          return Refused;
        }
        if StaleTemp(name) {
          if name !in stuck {
            files := files - {name};
          }
          continue;
        }
        if !IsToml(name) {
          continue;
        }
        var read := ReadAgentFile(name, unreadable);
        if read.None? {
          return Refused;
        }
        var c := read.value;
        if Stem(name) != c.id {
          return Refused;
        }
        TomlNameIsStem(name);
        forall other
          ensures FileName(other) == name <==> other == c.id
        {
          NamesInjective(other, c.id);
        }
        m := m[c.id := c];
      }
      assert order[..|order|] == order;
      return Got(m);
    }

    /** Some order of the directory's names. */
    method List() returns (order: seq<string>)
      ensures forall n :: n in order <==> n in files
    {
      order := [];
      var left := files.Keys;
      while left != {}
        invariant left <= files.Keys
        invariant forall n :: n in files <==> n in order || n in left
        invariant forall n :: n in order ==> n in files
        decreases left
      {
        var n :| n in left;
        left := left - {n};
        order := order + [n];
      }
    }

    /** Reload as a diff.  On any error the registry keeps what it has; otherwise it
        takes the directory's map, whatever was edited there, and the changes are
        exactly the difference. */
    method Reload(unreadable: set<string>, stuck: set<string>, p: Point) returns (r: Reading<seq<Change>>)
      requires Valid()
      modifies this`files, this`agents
      ensures Valid() && SameAgentFiles(old(files), files)
      ensures !r.Got? ==> agents == old(agents)
      ensures r.Got? ==> Agree() && IsDiff(old(agents), agents, r.value) && Patch(old(agents), r.value) == agents
      ensures r.Got? ==> Loadable(old(files))
      ensures old(Agree()) ==> Agree() && agents == old(agents) && (r.Got? ==> r.value == [])
      ensures unreadable == {} && p.Clean? ==> (r.Got? <==> Loadable(old(files)))
      ensures r.Died? ==> p.CrashAt?
    {
      hide GoodFile, Considered;
      ghost var before := files;
      var order := List();
      var loaded := Load(order, unreadable, stuck, p);
      if Gives(before, agents) {
        GivesOnlyAgentFiles(before, files, agents);
        if loaded.Got? {
          GivesUnique(files, loaded.value, agents);
        }
      }
      if loaded.Died? {
        return Died;
      }
      if loaded.Refused? {
        return Refused;
      }
      GivesLoadable(before, files, loaded.value);
      GivenSane(files, loaded.value);
      var changes := Diff(agents, loaded.value);
      DiffIsPatch(agents, loaded.value, changes);
      EmptyIffSame(agents, loaded.value, changes);
      agents := loaded.value;
      return Got(changes);
    }

    /** The process starts again: memory is gone, the directory is read. */
    method Restart(ghost before: Agents, ghost after: Agents)
      requires Survives(before, after)
      modifies this
      ensures Agree() && (agents == before || agents == after)
    {
      hide GoodFile, Considered;
      ghost var kept := if Gives(files, before) then before else after;
      ghost var disk := files;
      var order := List();
      var loaded := Load(order, {}, {}, Clean);
      GivesOnlyAgentFiles(disk, files, kept);
      assert loaded.Got?;
      GivesUnique(files, loaded.value, kept);
      agents := loaded.value;
    }

    /** One operation with any fault or crash in it; a crash is followed by a
        restart.  Disk and memory agree afterwards, on the map from before the
        operation or on the one it was to make. */
    method Perform(op: Op, pid: string, p: Point) returns (r: Status)
      requires Agree() && (op.OpRegister? || op.OpUpdate? ==> IsId(op.config.id))
      modifies this
      ensures Agree() && (agents == old(agents) || agents == Intended(old(agents), op))
      ensures r.Done? ==> agents == Intended(old(agents), op)
      ensures r.Failed? ==> agents == old(agents)
    {
      hide Gives, Sane;
      ghost var before := agents;
      AgreeValid();
      match op {
        case OpRegister(c) => r := Register(c, pid, p);
        case OpUpdate(c) => r := Update(c, pid, p);
        case OpSetEnabled(id, enabled) => r := SetEnabled(id, enabled, pid, p);
        case OpUnregister(id) => r := Unregister(id, p);
        case OpReload(unreadable) =>
          var changes := Reload(unreadable, {}, p);
          r := if changes.Got? then Done else if changes.Refused? then Failed else Crashed;
      }
      if r.Crashed? {
        Restart(before, Intended(before, op));
      }
    }

    /** Any history of operations, faults and crashes, without outside edits. */
    method History(ops: seq<(Op, string, Point)>)
      requires Agree()
      requires forall i :: 0 <= i < |ops| && (ops[i].0.OpRegister? || ops[i].0.OpUpdate?) ==> IsId(ops[i].0.config.id)
      modifies this
      ensures Agree()
    {
      for i := 0 to |ops|
        invariant Agree()
      {
        var r := Perform(ops[i].0, ops[i].1, ops[i].2);
      }
    }
  }

  datatype Op =
    | OpRegister(config: AgentConfig)
    | OpUpdate(config: AgentConfig)
    | OpSetEnabled(id: string, enabled: bool)
    | OpUnregister(id: string)
    | OpReload(unreadable: set<string>)

  /** The map an operation is to leave when nothing goes wrong. */
  function Intended(m: Agents, op: Op): Agents {
    match op
    case OpRegister(c) => m[c.id := c]
    case OpUpdate(c) => m[c.id := c]
    case OpSetEnabled(id, enabled) => if id in m then m[id := m[id].(enabled := enabled)] else m
    case OpUnregister(id) => m - {id}
    case OpReload(_) => m
  }
}
