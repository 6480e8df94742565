/** The agent id recogniser, and the names derived from an id. */
module AgentIds {
  import opened Text

  const MAX_TOKENS: nat := 16
  const MAX_TOKEN_LEN: nat := 63
  const SUBJECT_PREFIX: string := "agent.events"

  datatype IdError = TooManyTokens | EmptyToken | BadFirst(token: string) | TooLong(token: string) | BadChar(token: string)

  datatype Result<+T> = Ok(value: T) | Err(error: IdError)

  predicate Lower(c: char) { 'a' <= c <= 'z' }

  predicate Digit(c: char) { '0' <= c <= '9' }

  predicate First(c: char) { Lower(c) || Digit(c) }

  predicate Later(c: char) { First(c) || c == '-' }

  /** [a-z0-9][a-z0-9-]{0,62} */
  predicate IsToken(t: string) {
    1 <= |t| <= MAX_TOKEN_LEN && First(t[0]) && forall i :: 1 <= i < |t| ==> Later(t[i])
  }

  /** The grammar: 1 to 16 tokens joined by underscores. */
  predicate AreTokens(ts: seq<string>) {
    1 <= |ts| <= MAX_TOKENS && forall i :: 0 <= i < |ts| ==> IsToken(ts[i])
  }

  ghost predicate IsId(s: string) {
    exists ts :: AreTokens(ts) && Join(ts, '_') == s
  }

  /** Bytes of a character in UTF-8. */
  function Utf8Len(c: char): nat {
    var n := c as int;
    if n < 0x80 then 1 else if n < 0x800 then 2 else if n < 0x1_0000 then 3 else 4
  }

  function Utf8Bytes(s: string): (n: nat)
    ensures n >= |s|
    ensures (forall i :: 0 <= i < |s| ==> Later(s[i])) ==> n == |s|
  {
    if s == "" then 0 else Utf8Len(s[0]) + Utf8Bytes(s[1..])
  }

  method ValidateToken(token: string) returns (r: Result<()>)
    ensures r.Ok? <==> IsToken(token)
    ensures r == Err(EmptyToken) <==> token == ""
    ensures r == Err(BadFirst(token)) <==> token != "" && !First(token[0])
    ensures r == Err(TooLong(token)) <==> token != "" && First(token[0]) && Utf8Bytes(token) > MAX_TOKEN_LEN
    ensures r == Err(BadChar(token)) <==>
      token != "" && First(token[0]) && Utf8Bytes(token) <= MAX_TOKEN_LEN && exists i :: 1 <= i < |token| && !Later(token[i])
  {
    if |token| == 0 {
      return Err(EmptyToken);
    }
    var first := token[0];
    if !First(first) {
      return Err(BadFirst(token));
    }
    var len := Utf8Len(first) + Utf8Bytes(token[1..]);
    if len > MAX_TOKEN_LEN {
      if forall i :: 1 <= i < |token| ==> Later(token[i]) {
        assert forall i :: 0 <= i < |token[1..]| ==> token[1..][i] == token[i + 1];
      }
      return Err(TooLong(token));
    }
    for i := 1 to |token|
      invariant forall j :: 1 <= j < i ==> Later(token[j])
    {
      if !Later(token[i]) {
        return Err(BadChar(token));
      }
    }
    return Ok(());
  }

  /** Accepts exactly the grammar, and keeps the input as the id. */
  method Parse(input: string) returns (r: Result<string>)
    ensures r.Ok? <==> IsId(input)
    ensures r.Ok? ==> r.value == input
    ensures r == Err(TooManyTokens) <==> |Split(input, '_')| > MAX_TOKENS
  {
    var tokens := Split(input, '_');
    JoinSplit(input, '_');
    forall ts | AreTokens(ts) && Join(ts, '_') == input
      ensures ts == tokens
    {
      TokensSplit(ts);
    }
    if |tokens| > MAX_TOKENS {
      return Err(TooManyTokens);
    }
    for i := 0 to |tokens|
      invariant forall j :: 0 <= j < i ==> IsToken(tokens[j])
    {
      var v := ValidateToken(tokens[i]);
      if v.Err? {
        return Err(v.error);
      }
    }
    return Ok(input);
  }

  lemma TokensSplit(ts: seq<string>)
    requires AreTokens(ts)
    ensures Split(Join(ts, '_'), '_') == ts
  {
    forall i | 0 <= i < |ts|
      ensures Free(ts[i], '_')
    {
      assert IsToken(ts[i]);
    }
    SplitJoin(ts, '_');
  }

  /** An id has one reading only. */
  lemma TokensUnique(ts: seq<string>, us: seq<string>)
    requires AreTokens(ts) && AreTokens(us) && Join(ts, '_') == Join(us, '_')
    ensures ts == us
  {
    TokensSplit(ts);
    TokensSplit(us);
  }

  predicate IdChar(c: char) { Later(c) || c == '_' }

  lemma {:induction false} JoinedTokens(ts: seq<string>)
    requires |ts| >= 1 && forall i :: 0 <= i < |ts| ==> IsToken(ts[i])
    ensures var s := Join(ts, '_');
      && 1 <= |s| <= 64 * |ts| - 1 && First(s[0])
      && forall i :: 0 <= i < |s| ==> IdChar(s[i])
  {
    assert IsToken(ts[0]);
    if |ts| > 1 {
      JoinedTokens(ts[1..]);
    }
  }

  /** An id is at most 1023 characters, all of [a-z0-9_-], the first of [a-z0-9]. */
  lemma IdShape(s: string)
    requires IsId(s)
    ensures 1 <= |s| <= 1023 && First(s[0]) && forall i :: 0 <= i < |s| ==> IdChar(s[i])
  {
    var ts :| AreTokens(ts) && Join(ts, '_') == s;
    JoinedTokens(ts);
  }

  /** The characters of a token, written out. */
  lemma AlphabetIs(c: char)
    ensures First(c) <==> c in "abcdefghijklmnopqrstuvwxyz0123456789"
    ensures Later(c) <==> c in "abcdefghijklmnopqrstuvwxyz0123456789-"
  {
  }

  function Letters(n: nat): (s: string)
    ensures |s| == n && forall i :: 0 <= i < n ==> s[i] == 'a'
  {
    if n == 0 then "" else "a" + Letters(n - 1)
  }

  function Repeat(t: string, n: nat): (ts: seq<string>)
    ensures |ts| == n && forall i :: 0 <= i < n ==> ts[i] == t
  {
    if n == 0 then [] else [t] + Repeat(t, n - 1)
  }

  /** The limits are met: 16 tokens of 63 characters make an id, of 1023 characters; a
      token of 64, or a 17th token, does not. */
  lemma LimitsMet()
    ensures IsId(Join(Repeat(Letters(63), 16), '_')) && |Join(Repeat(Letters(63), 16), '_')| == 1023
    ensures !IsToken(Letters(64)) && !IsId(Join(Repeat(Letters(63), 17), '_'))
  {
    assert AreTokens(Repeat(Letters(63), 16));
    JoinLength(Letters(63), 16);
    var long := Repeat(Letters(63), 17);
    forall i | 0 <= i < |long|
      ensures Free(long[i], '_')
    {
    }
    SplitJoin(long, '_');
    forall ts | AreTokens(ts) && Join(ts, '_') == Join(long, '_')
      ensures false
    {
      TokensSplit(ts);
    }
  }

  lemma {:induction false} JoinLength(t: string, n: nat)
    requires n >= 1
    ensures |Join(Repeat(t, n), '_')| == n * (|t| + 1) - 1
  {
    if n > 1 {
      JoinLength(t, n - 1);
      assert Repeat(t, n)[1..] == Repeat(t, n - 1);
    }
  }

  // ---- derived names -------------------------------------------------------

  function Subject(id: string): string { SUBJECT_PREFIX + "." + id }

  function ConsumerName(id: string): string { "agent-" + id }

  function FileName(id: string): string { id + ".toml" }

  function TempName(id: string, pid: string): string { "." + id + "." + pid + ".tmp" }

  lemma NamesInjective(a: string, b: string)
    ensures Subject(a) == Subject(b) ==> a == b
    ensures ConsumerName(a) == ConsumerName(b) ==> a == b
    ensures FileName(a) == FileName(b) ==> a == b
  {
    assert Subject(a)[|SUBJECT_PREFIX| + 1..] == a && Subject(b)[|SUBJECT_PREFIX| + 1..] == b;
    assert ConsumerName(a)[6..] == a && ConsumerName(b)[6..] == b;
    assert FileName(a)[..|FileName(a)| - 5] == a && FileName(b)[..|FileName(b)| - 5] == b;
  }

  /** NATS subject matching, token by token. */
  predicate TokensMatch(filter: seq<string>, subject: seq<string>) {
    if filter == [] then subject == []
    else if filter == [">"] then subject != []
    else subject != [] && (filter[0] == "*" || filter[0] == subject[0]) && TokensMatch(filter[1..], subject[1..])
  }

  predicate SubjectMatches(filter: string, subject: string) {
    TokensMatch(Split(filter, '.'), Split(subject, '.'))
  }

  lemma SubjectTokens(id: string)
    requires IsId(id)
    ensures Split(Subject(id), '.') == ["agent", "events", id]
  {
    IdShape(id);
    assert Free(id, '.');
    SplitFree(id, '.');
    SplitFirst("events", id, '.');
    SplitFirst("agent", "events" + "." + id, '.');
    assert Subject(id) == "agent" + "." + ("events" + "." + id);
  }

  /** An agent's consumer gets its own subject and no other agent's. */
  lemma FiltersDisjoint(a: string, b: string)
    requires IsId(a) && IsId(b)
    ensures SubjectMatches(Subject(a), Subject(b)) <==> a == b
  {
    SubjectTokens(a);
    SubjectTokens(b);
    IdShape(a);
    var fa, fb := ["agent", "events", a], ["agent", "events", b];
    assert fa[1..] == ["events", a] && fb[1..] == ["events", b];
    assert fa[1..][1..] == [a] && fb[1..][1..] == [b];
    assert [a][1..] == [] && [b][1..] == [];
    assert a != "*" && a != ">";
    assert TokensMatch([a], [b]) <==> a == b;
    assert fa[1..] != [">"] && fa != [">"];
    assert TokensMatch(fa[1..], fb[1..]) <==> TokensMatch([a], [b]);
    assert TokensMatch(fa, fb) <==> TokensMatch(fa[1..], fb[1..]);
  }

  /** The registry's view of a file name: a stale temporary, or by extension. */
  predicate StaleTemp(name: string) {
    && |name| >= 1 && name[0] == '.'
    && |name| >= 4 && name[|name| - 4..] == ".tmp"
  }

  /** Extension and stem as `Path` has them: a leading dot starts no extension. */
  predicate IsToml(name: string) {
    var d := FindLast(name, '.');
    d.Index? && d.at > 0 && name[d.at + 1..] == "toml"
  }

  function Stem(name: string): string {
    var d := FindLast(name, '.');
    if d.Index? && d.at > 0 then name[..d.at] else name
  }

  /** The sweep takes exactly the names that start with a dot and end in ".tmp". */
  lemma StaleTempExactly(name: string)
    ensures StaleTemp(name) <==> name == ".tmp" || exists m :: name == "." + m + ".tmp"
  {
    if StaleTemp(name) && name != ".tmp" {
      assert name[..|name| - 4] + ".tmp" == name;
      assert name == "." + name[1..|name| - 4] + ".tmp";
    }
  }

  /** The extension is "toml" exactly of a name that is more than ".toml" and ends so. */
  lemma TomlExactly(name: string)
    ensures IsToml(name) <==> exists m :: m != "" && name == m + ".toml"
  {
    if IsToml(name) {
      var d := FindLast(name, '.');
      assert name == name[..d.at] + ".toml";
    }
    if m :| m != "" && name == m + ".toml" {
      assert name[|m| + 1..] == "toml" && Free("toml", '.');
      FindLastIs(name, '.', |m|);
    }
  }

  /** The sweep of stale temporaries never takes an agent's file, which reads back
      as that agent's; and it always takes a temporary. */
  lemma FileNamesRecognised(id: string, pid: string)
    requires IsId(id)
    ensures !StaleTemp(FileName(id)) && IsToml(FileName(id)) && Stem(FileName(id)) == id
    ensures StaleTemp(TempName(id, pid)) && FileName(id) != TempName(id, pid)
  {
    IdShape(id);
    var n := FileName(id);
    assert n[|id| + 1..] == "toml" && Free("toml", '.');
    FindLastIs(n, '.', |id|);
    assert n[..|id|] == id;
    var t := TempName(id, pid);
    assert t[|t| - 4..] == ".tmp";
  }
}
