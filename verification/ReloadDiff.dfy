/** A reload as a list of changes. */
module ReloadDiff {

  import opened Common

  datatype AgentConfig = AgentConfig(id: string, handler: string, conc: nat, cwd: Option<string>, enabled: bool)
  {
    /** Structural validation: absolute paths, at least one handler at a time. */
    predicate Validates() {
      IsAbsolute(handler) && conc != 0 && (cwd.Some? ==> IsAbsolute(cwd.value))
    }
  }

  /** A configuration is valid exactly when its handler is an absolute path, it allows
      one handler at least, and its working directory, if any, is absolute. */
  lemma ValidExactly(c: AgentConfig)
    ensures c.Validates() <==>
      && c.conc >= 1
      && (exists rest :: c.handler == "/" + rest)
      && (c.cwd.Some? ==> exists rest :: c.cwd.value == "/" + rest)
  {
    AbsoluteExactly(c.handler);
    if c.cwd.Some? {
      AbsoluteExactly(c.cwd.value);
    }
  }

  lemma AbsoluteExactly(path: string)
    ensures IsAbsolute(path) <==> exists rest :: path == "/" + rest
  {
    if IsAbsolute(path) {
      assert path == "/" + path[1..];
    }
  }

  predicate IsAbsolute(path: string) { path != "" && path[0] == '/' }

  type Agents = map<string, AgentConfig>

  /** Configurations are filed under their own ids. */
  predicate Filed(m: Agents) { forall id :: id in m ==> m[id].id == id }

  datatype Change =
    | Added(config: AgentConfig)
    | Updated(config: AgentConfig)
    | Enabled(config: AgentConfig)
    | Disabled(config: AgentConfig)
    | Removed(id: string)
  {
    function AgentId(): string { if Removed? then id else config.id }
  }

  // ---- the order of ids ----------------------------------------------------

  predicate Less(a: string, b: string) {
    b != "" && (a == "" || a[0] < b[0] || (a[0] == b[0] && Less(a[1..], b[1..])))
  }

  /** The order is the dictionary's: at the first difference the smaller character, or
      the shorter string, comes first. */
  lemma {:induction false} LessExactly(a: string, b: string)
    ensures Less(a, b) <==>
      exists i :: 0 <= i <= |a| && i < |b| && a[..i] == b[..i] && (i == |a| || a[i] < b[i])
  {
    if Less(a, b) {
      var i := FirstDifference(a, b);
    } else if i :| 0 <= i <= |a| && i < |b| && a[..i] == b[..i] && (i == |a| || a[i] < b[i]) {
      SmallerLess(a, b, i);
      assert false;
    }
  }

  lemma {:induction false} FirstDifference(a: string, b: string) returns (i: nat)
    requires Less(a, b)
    ensures i <= |a| && i < |b| && a[..i] == b[..i] && (i == |a| || a[i] < b[i])
  {
    if a == "" || a[0] < b[0] {
      i := 0;
    } else {
      var j := FirstDifference(a[1..], b[1..]);
      i := j + 1;
      assert a[..i] == [a[0]] + a[1..][..j] && b[..i] == [b[0]] + b[1..][..j];
    }
  }

  lemma {:induction false} SmallerLess(a: string, b: string, i: nat)
    requires i <= |a| && i < |b| && a[..i] == b[..i] && (i == |a| || a[i] < b[i])
    ensures Less(a, b)
  {
    if i > 0 {
      assert a[0] == a[..i][0] == b[..i][0] == b[0];
      assert a[1..][..i - 1] == a[..i][1..] && b[1..][..i - 1] == b[..i][1..];
      SmallerLess(a[1..], b[1..], i - 1);
    }
  }

  lemma {:induction false} LessTotal(a: string, b: string)
    ensures Less(a, b) || a == b || Less(b, a)
  {
    if a != "" && b != "" && a[0] == b[0] {
      LessTotal(a[1..], b[1..]);
      assert a == [a[0]] + a[1..] && b == [b[0]] + b[1..];
    }
  }

  lemma {:induction false} LessTransitive(a: string, b: string, c: string)
    requires Less(a, b) && Less(b, c)
    ensures Less(a, c)
  {
    if a != "" && a[0] == b[0] == c[0] {
      LessTransitive(a[1..], b[1..], c[1..]);
    }
  }

  lemma {:induction false} LessIrreflexive(a: string)
    ensures !Less(a, a)
  {
    if a != "" {
      LessIrreflexive(a[1..]);
    }
  }

  predicate StrictlySorted(cs: seq<Change>) {
    forall i, j :: 0 <= i < j < |cs| ==> Less(cs[i].AgentId(), cs[j].AgentId())
  }

  // ---- the diff ------------------------------------------------------------

  /** The change one id went through.  A flip of `enabled` wins over other edits. */
  function ChangeOf(was: Agents, now: Agents, id: string): Option<Change> {
    if id !in was && id !in now then None
    else if id !in was then Some(Added(now[id]))
    else if id !in now then Some(Removed(id))
    else if was[id].enabled != now[id].enabled
    then Some(if now[id].enabled then Enabled(now[id]) else Disabled(now[id]))
    else if was[id] != now[id] then Some(Updated(now[id]))
    else None
  }

  /** Sorted, one change for each id that changed, and no other. */
  ghost predicate IsDiff(was: Agents, now: Agents, cs: seq<Change>) {
    && StrictlySorted(cs)
    && (forall i :: 0 <= i < |cs| ==> ChangeOf(was, now, cs[i].AgentId()) == Some(cs[i]))
    && (forall id :: ChangeOf(was, now, id).Some? ==> ChangeOf(was, now, id).value in cs)
  }

  lemma ChangeNamesId(was: Agents, now: Agents, id: string)
    requires Filed(was) && Filed(now) && ChangeOf(was, now, id).Some?
    ensures ChangeOf(was, now, id).value.AgentId() == id
  {
  }

  /** Put one change in its place. */
  function Place(cs: seq<Change>, c: Change): (r: seq<Change>)
    ensures |r| == |cs| + 1
  {
    if cs == [] || Less(c.AgentId(), cs[0].AgentId()) then [c] + cs else [cs[0]] + Place(cs[1..], c)
  }

  lemma {:induction false} PlaceSorted(cs: seq<Change>, c: Change)
    requires StrictlySorted(cs)
    requires forall i :: 0 <= i < |cs| ==> cs[i].AgentId() != c.AgentId()
    ensures StrictlySorted(Place(cs, c))
    ensures forall d :: d in Place(cs, c) <==> d == c || d in cs
  {
    if cs != [] && !Less(c.AgentId(), cs[0].AgentId()) {
      LessTotal(c.AgentId(), cs[0].AgentId());
      PlaceSorted(cs[1..], c);
      var rest := Place(cs[1..], c);
      forall j | 0 <= j < |rest|
        ensures Less(cs[0].AgentId(), rest[j].AgentId())
      {
        assert rest[j] in rest;
      }
      assert cs == [cs[0]] + cs[1..];
    } else if cs != [] {
      forall j | 0 <= j < |cs|
        ensures Less(c.AgentId(), cs[j].AgentId())
      {
        if j > 0 {
          LessTransitive(c.AgentId(), cs[0].AgentId(), cs[j].AgentId());
        }
      }
    }
  }

  ghost predicate OneEach(cs: seq<Change>) {
    forall i, j :: 0 <= i < j < |cs| ==> cs[i].AgentId() != cs[j].AgentId()
  }

  method SortById(changes: seq<Change>) returns (sorted: seq<Change>)
    requires OneEach(changes)
    ensures StrictlySorted(sorted)
    ensures forall c :: c in sorted <==> c in changes
  {
    sorted := [];
    for i := 0 to |changes|
      invariant StrictlySorted(sorted)
      invariant forall c :: c in sorted <==> c in changes[..i]
    {
      PlaceSorted(sorted, changes[i]) by {
        forall k | 0 <= k < |sorted|
          ensures sorted[k].AgentId() != changes[i].AgentId()
        {
          assert sorted[k] in changes[..i];
        }
      }
      sorted := Place(sorted, changes[i]);
      assert changes[..i + 1] == changes[..i] + [changes[i]];
    }
    assert changes[..|changes|] == changes;
  }

  /** Compare id by id, in whatever order the ids come, and sort what was pushed. */
  method Diff(was: Agents, now: Agents) returns (changes: seq<Change>)
    requires Filed(was) && Filed(now)
    ensures IsDiff(was, now, changes)
    ensures forall c :: c in changes <==> Means(was, now, c)
  {
    var pushed := [];
    var left := was.Keys + now.Keys;
    while left != {}
      invariant left <= was.Keys + now.Keys
      invariant OneEach(pushed)
      invariant forall c :: c in pushed ==> c.AgentId() !in left && ChangeOf(was, now, c.AgentId()) == Some(c)
      invariant forall id :: id !in left && ChangeOf(was, now, id).Some? ==> ChangeOf(was, now, id).value in pushed
      decreases left
    {
      var id :| id in left;
      left := left - {id};
      var c: Option<Change> := None;
      if id !in was {
        c := Some(Added(now[id]));
      } else if id !in now {
        c := Some(Removed(id));
      } else if was[id].enabled != now[id].enabled {
        c := Some(if now[id].enabled then Enabled(now[id]) else Disabled(now[id]));
      } else if was[id] != now[id] {
        c := Some(Updated(now[id]));
      }
      if c.Some? {
        ChangeNamesId(was, now, id);
        forall i | 0 <= i < |pushed|
          ensures pushed[i].AgentId() != id
        {
          assert pushed[i] in pushed;
        }
        pushed := pushed + [c.value];
      }
    }
    changes := SortById(pushed);
    forall i | 0 <= i < |changes|
      ensures ChangeOf(was, now, changes[i].AgentId()) == Some(changes[i])
    {
      assert changes[i] in pushed;
    }
    forall c
      ensures c in changes <==> Means(was, now, c)
    {
      ChangesMean(was, now, changes, c);
    }
  }

  /** The list does not depend on the order in which ids were visited. */
  lemma {:induction false} DiffUnique(was: Agents, now: Agents, cs: seq<Change>, ds: seq<Change>)
    requires IsDiff(was, now, cs) && IsDiff(was, now, ds)
    ensures cs == ds
  {
    forall c
      ensures c in cs <==> c in ds
    {
    }
    SortedUnique(cs, ds);
  }

  lemma {:induction false} SortedUnique(cs: seq<Change>, ds: seq<Change>)
    requires StrictlySorted(cs) && StrictlySorted(ds)
    requires forall c :: c in cs <==> c in ds
    ensures cs == ds
  {
    assert cs != [] ==> cs[0] in ds;
    assert ds != [] ==> ds[0] in cs;
    if cs != [] && ds != [] {
      HeadsEqual(cs, ds);
      forall c
        ensures c in cs[1..] <==> c in ds[1..]
      {
        TailMember(cs, c);
        TailMember(ds, c);
      }
      SortedUnique(cs[1..], ds[1..]);
      assert cs == [cs[0]] + cs[1..] && ds == [ds[0]] + ds[1..];
    }
  }

  lemma TailMember(cs: seq<Change>, c: Change)
    requires cs != [] && StrictlySorted(cs)
    ensures c in cs[1..] <==> c in cs && c != cs[0]
  {
    LessIrreflexive(cs[0].AgentId());
    assert cs == [cs[0]] + cs[1..];
  }

  lemma HeadsEqual(cs: seq<Change>, ds: seq<Change>)
    requires cs != [] && ds != [] && StrictlySorted(cs) && StrictlySorted(ds)
    requires forall c :: c in cs <==> c in ds
    ensures cs[0] == ds[0]
  {
    assert cs[0] in ds && ds[0] in cs;
    var i :| 0 <= i < |ds| && ds[i] == cs[0];
    var j :| 0 <= j < |cs| && cs[j] == ds[0];
    if i > 0 && j > 0 {
      LessTransitive(cs[0].AgentId(), ds[0].AgentId(), cs[0].AgentId());
      LessIrreflexive(cs[0].AgentId());
    }
  }

  // ---- the diff as a patch -------------------------------------------------

  function PatchOne(m: Agents, c: Change): Agents {
    if c.Removed? then m - {c.id} else m[c.config.id := c.config]
  }

  /** Apply changes from the first to the last. */
  function Patch(m: Agents, cs: seq<Change>): Agents
    decreases |cs|
  {
    if cs == [] then m else Patch(PatchOne(m, cs[0]), cs[1..])
  }

  lemma {:induction false} PatchElsewhere(m: Agents, cs: seq<Change>, id: string)
    requires forall i :: 0 <= i < |cs| ==> cs[i].AgentId() != id
    ensures id in Patch(m, cs) <==> id in m
    ensures id in m ==> Patch(m, cs)[id] == m[id]
    decreases |cs|
  {
    if cs != [] {
      PatchElsewhere(PatchOne(m, cs[0]), cs[1..], id);
    }
  }

  lemma {:induction false} PatchThere(m: Agents, cs: seq<Change>, i: nat)
    requires StrictlySorted(cs) && i < |cs|
    ensures if cs[i].Removed? then cs[i].id !in Patch(m, cs)
            else cs[i].config.id in Patch(m, cs) && Patch(m, cs)[cs[i].config.id] == cs[i].config
    decreases |cs|
  {
    if i > 0 {
      PatchThere(PatchOne(m, cs[0]), cs[1..], i - 1);
    } else {
      forall j | 0 <= j < |cs[1..]|
        ensures cs[1..][j].AgentId() != cs[0].AgentId()
      {
        LessIrreflexive(cs[0].AgentId());
      }
      PatchElsewhere(PatchOne(m, cs[0]), cs[1..], cs[0].AgentId());
    }
  }

  lemma PatchAt(was: Agents, now: Agents, cs: seq<Change>, id: string)
    requires Filed(was) && Filed(now) && IsDiff(was, now, cs)
    ensures id in Patch(was, cs) <==> id in now
    ensures id in now ==> Patch(was, cs)[id] == now[id]
  {
    var c := ChangeOf(was, now, id);
    if c.Some? {
      ChangeNamesId(was, now, id);
      var i :| 0 <= i < |cs| && cs[i] == c.value;
      PatchThere(was, cs, i);
    } else {
      PatchElsewhere(was, cs, id);
    }
  }

  /** The emitted changes turn the old map into the new one, exactly. */
  lemma DiffIsPatch(was: Agents, now: Agents, cs: seq<Change>)
    requires Filed(was) && Filed(now) && IsDiff(was, now, cs)
    ensures Patch(was, cs) == now
  {
    forall id
      ensures id in Patch(was, cs) <==> id in now
      ensures id in now ==> Patch(was, cs)[id] == now[id]
    {
      PatchAt(was, now, cs, id);
    }
  }

  lemma EmptyIffSame(was: Agents, now: Agents, cs: seq<Change>)
    requires Filed(was) && Filed(now) && IsDiff(was, now, cs)
    ensures cs == [] <==> was == now
  {
    if cs == [] {
      DiffIsPatch(was, now, cs);
    } else {
      assert ChangeOf(was, now, cs[0].AgentId()) == Some(cs[0]);
    }
  }

  /** What each kind of change means, in the maps. */
  predicate Means(was: Agents, now: Agents, c: Change) {
    match c
    case Added(config) => config.id !in was && config.id in now && now[config.id] == config
    case Removed(id) => id in was && id !in now
    case Enabled(config) =>
      config.id in was && config.id in now && now[config.id] == config && !was[config.id].enabled && config.enabled
    case Disabled(config) =>
      config.id in was && config.id in now && now[config.id] == config && was[config.id].enabled && !config.enabled
    case Updated(config) =>
      && config.id in was && config.id in now && now[config.id] == config
      && was[config.id].enabled == config.enabled && was[config.id] != config
  }

  /** An entry of the list is a change exactly when that is what happened. */
  lemma ChangesMean(was: Agents, now: Agents, cs: seq<Change>, c: Change)
    requires Filed(was) && Filed(now) && IsDiff(was, now, cs)
    ensures c in cs <==> Means(was, now, c)
  {
    if c in cs {
      var i :| 0 <= i < |cs| && cs[i] == c;
      assert ChangeOf(was, now, cs[i].AgentId()) == Some(cs[i]);
    }
    if Means(was, now, c) {
      assert ChangeOf(was, now, c.AgentId()) == Some(c);
    }
  }

  /** Every change but a removal carries the whole new configuration, so a flip of
      `enabled` together with other edits loses no field. */
  lemma ChangesCarryAll(was: Agents, now: Agents, cs: seq<Change>, i: nat)
    requires Filed(now) && IsDiff(was, now, cs) && i < |cs| && !cs[i].Removed?
    ensures cs[i].config.id in now && cs[i].config == now[cs[i].config.id]
    ensures cs[i].Enabled? || cs[i].Disabled? <==>
      cs[i].config.id in was && was[cs[i].config.id].enabled != cs[i].config.enabled
  {
    assert ChangeOf(was, now, cs[i].AgentId()) == Some(cs[i]);
  }

  lemma {:induction false} PatchAppend(m: Agents, cs: seq<Change>, ds: seq<Change>)
    ensures Patch(m, cs + ds) == Patch(Patch(m, cs), ds)
    decreases |cs|
  {
    if cs == [] {
      assert cs + ds == ds;
    } else {
      PatchAppend(PatchOne(m, cs[0]), cs[1..], ds);
      assert (cs + ds)[1..] == cs[1..] + ds;
    }
  }

  function Flatten(css: seq<seq<Change>>): seq<Change> {
    if css == [] then [] else css[0] + Flatten(css[1..])
  }

  /** Over any number of reloads, folding everything emitted tracks the registry. */
  lemma {:induction false} ReloadsTrack(maps: seq<Agents>, diffs: seq<seq<Change>>)
    requires |maps| == |diffs| + 1 && forall i :: 0 <= i < |maps| ==> Filed(maps[i])
    requires forall i :: 0 <= i < |diffs| ==> IsDiff(maps[i], maps[i + 1], diffs[i])
    ensures Patch(maps[0], Flatten(diffs)) == maps[|maps| - 1]
  {
    if diffs != [] {
      DiffIsPatch(maps[0], maps[1], diffs[0]);
      ReloadsTrack(maps[1..], diffs[1..]);
      PatchAppend(maps[0], diffs[0], Flatten(diffs[1..]));
    }
  }
}
