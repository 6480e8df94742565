/** Redaction of the userinfo in a URL, as it reaches the log. */
module RedactUrl {
  import opened Text

  const MARK: string := "://"

  function AuthorityStart(url: string): (n: nat)
    ensures n <= |url|
  {
    match Find(url, MARK)
    case Index(at) => at + 3
    case Nowhere => 0
  }

  function AuthorityEnd(url: string): (n: nat)
    ensures AuthorityStart(url) <= n <= |url|
  {
    var start := AuthorityStart(url);
    match Find(url[start..], "/")
    case Index(at) => start + at
    case Nowhere => |url|
  }

  function Redacted(url: string): string {
    var start, end := AuthorityStart(url), AuthorityEnd(url);
    match FindLast(url[start..end], '@')
    case Nowhere => url
    case Index(at) => url[..start] + "***" + url[start + at..]
  }

  /** The source's own steps: compute the indices, then push three pieces. */
  method Redact(url: string) returns (redacted: string)
    ensures redacted == Redacted(url)
  {
    hide Find, FindLast;
    var authorityStart := 0;
    var scheme := Find(url, MARK);
    if scheme.Index? {
      authorityStart := scheme.at + 3;
    }
    assert authorityStart == AuthorityStart(url);
    var authorityEnd := |url|;
    var slash := Find(url[authorityStart..], "/");
    if slash.Index? {
      authorityEnd := authorityStart + slash.at;
    }
    assert authorityEnd == AuthorityEnd(url);
    hide AuthorityStart, AuthorityEnd;
    var at := FindLast(url[authorityStart..authorityEnd], '@');
    if at.Nowhere? {
      return url;
    }
    redacted := url[..authorityStart];
    redacted := redacted + "***";
    redacted := redacted + url[authorityStart + at.at..];
  }

  /** Nothing, or a path: what can follow an authority. */
  predicate Tail(rest: string) { rest == "" || rest[0] == '/' }

  /** A prefix up to and including the scheme's marker, or no prefix at all when
      the whole URL has no marker. */
  predicate Opens(prefix: string, url: string) {
    || (prefix == "" && !Contains(url, MARK))
    || (|prefix| >= 3 && prefix <= url && Find(url, MARK) == Index(|prefix| - 3))
  }

  lemma SlashAt(a: string, rest: string)
    requires Free(a, '/') && Tail(rest)
    ensures Find(a + rest, "/") == if rest == "" then Nowhere else Index(|a|)
  {
    var s := a + rest;
    forall j | 0 <= j < |a|
      ensures !FoundAt(s, "/", j)
    {
      assert s[j..j + 1] == [a[j]];
      assert s[j..j + 1][0] == a[j];
    }
    if rest != "" {
      assert s[|a|..|a| + 1] == "/";
      FindIs(s, "/", |a|);
    }
  }

  /** How a URL with a known layout is cut. */
  lemma Cut(prefix: string, authority: string, rest: string)
    requires Free(authority, '/') && Tail(rest) && Opens(prefix, prefix + authority + rest)
    ensures var url := prefix + authority + rest;
      && AuthorityStart(url) == |prefix| && AuthorityEnd(url) == |prefix| + |authority|
      && url[|prefix|..|prefix| + |authority|] == authority
  {
    var url := prefix + authority + rest;
    assert url[|prefix|..] == authority + rest;
    SlashAt(authority, rest);
  }

  /** With userinfo, the result keeps what is before and after it, and nothing of it. */
  lemma CutUserinfo(prefix: string, user: string, host: string, rest: string)
    requires Free(user, '/') && Free(host, '/') && Free(host, '@') && Tail(rest)
    requires Opens(prefix, prefix + (user + "@" + host) + rest)
    ensures Redacted(prefix + (user + "@" + host) + rest) == prefix + "***@" + host + rest
  {
    hide AuthorityStart, AuthorityEnd, FindLast, Find, Opens, Free, Tail;
    var authority := user + "@" + host;
    LastAt(user, host);
    Cut(prefix, authority, rest);
    CutAt(prefix + authority + rest, |prefix|, |prefix| + |authority|, |user|);
    Pieces(prefix, user, host, rest);
  }

  lemma LastAt(user: string, host: string)
    requires Free(user, '/') && Free(host, '/') && Free(host, '@')
    ensures FindLast(user + "@" + host, '@') == Index(|user|) && Free(user + "@" + host, '/')
  {
    hide FindLast;
    var authority := user + "@" + host;
    assert authority[|user| + 1..] == host && authority[|user|] == '@';
    FindLastIs(authority, '@', |user|);
    forall i | 0 <= i < |authority|
      ensures authority[i] != '/'
    {
      assert authority[i] == if i < |user| then user[i] else if i == |user| then '@' else host[i - |user| - 1];
    }
  }

  lemma CutAt(url: string, start: nat, end: nat, k: nat)
    requires start == AuthorityStart(url) && end == AuthorityEnd(url)
    requires FindLast(url[start..end], '@') == Index(k)
    ensures start + k <= |url| && Redacted(url) == url[..start] + "***" + url[start + k..]
  {
  }

  lemma Pieces(prefix: string, user: string, host: string, rest: string)
    ensures var url := prefix + (user + "@" + host) + rest;
      url[..|prefix|] + "***" + url[|prefix| + |user|..] == prefix + "***@" + host + rest
  {
    var url := prefix + (user + "@" + host) + rest;
    assert url[..|prefix|] == prefix;
    assert url[|prefix| + |user|..] == "@" + host + rest;
    assert "***" + ("@" + host + rest) == "***@" + host + rest;
  }

  lemma CutPlain(prefix: string, authority: string, rest: string)
    requires Free(authority, '/') && Free(authority, '@') && Tail(rest) && Opens(prefix, prefix + authority + rest)
    ensures Redacted(prefix + authority + rest) == prefix + authority + rest
  {
    Cut(prefix, authority, rest);
    var at := FindLast(authority, '@');
    assert at.Nowhere?;
  }

  lemma ThreePieces(s: string, i: nat, j: nat)
    requires i <= j <= |s|
    ensures s == s[..i] + s[i..j] + s[j..]
  {
    assert s[..i] + s[i..j] == s[..j];
  }

  /** Every URL has such a layout. */
  lemma Layout(url: string) returns (prefix: string, authority: string, rest: string)
    ensures url == prefix + authority + rest
    ensures Free(authority, '/') && Tail(rest) && Opens(prefix, url)
  {
    var start, end := AuthorityStart(url), AuthorityEnd(url);
    prefix, authority, rest := url[..start], url[start..end], url[end..];
    ThreePieces(url, start, end);
    var tail := url[start..];
    var slash := Find(tail, "/");
    forall i | 0 <= i < |authority|
      ensures authority[i] != '/'
    {
      assert !FoundAt(tail, "/", i);
      assert tail[i..i + 1] == [authority[i]];
    }
    if slash.Index? {
      assert FoundAt(tail, "/", slash.at);
      assert tail[slash.at..slash.at + 1][0] == rest[0];
    }
    if Find(url, MARK).Nowhere? {
      assert !Contains(url, MARK);
    }
  }

  /** The first marker stays the first when only what follows it changes. */
  lemma PrefixOpens(prefix: string, a: string, b: string)
    requires |prefix| >= 3 && Find(prefix + a, MARK) == Index(|prefix| - 3)
    ensures Find(prefix + b, MARK) == Index(|prefix| - 3)
  {
    var u, v := prefix + a, prefix + b;
    forall j | 0 <= j < |prefix| - 3
      ensures !FoundAt(v, MARK, j)
    {
      assert !FoundAt(u, MARK, j);
      assert u[j..j + 3] == prefix[j..j + 3] == v[j..j + 3];
    }
    assert FoundAt(u, MARK, |prefix| - 3);
    assert u[|prefix| - 3..|prefix|] == v[|prefix| - 3..|prefix|];
    FindIs(v, MARK, |prefix| - 3);
  }

  /** A text without a marker has none after "***" replaces what stands before an '@'. */
  lemma StarsHideNothing(user: string, after: string)
    requires !Contains(user + "@" + after, MARK)
    ensures !Contains("***@" + after, MARK)
  {
    var u, v := user + "@" + after, "***@" + after;
    if Contains(v, MARK) {
      var i: nat :| i <= |v| && FoundAt(v, MARK, i);
      assert v[i..i + 3][0] == ':' && v[i] == ':';
      assert i >= 4;
      var k := |user| + 1 + (i - 4);
      assert v[i..i + 3] == after[i - 4..i - 1] == u[k..k + 3];
      assert FoundAt(u, MARK, k);
    }
  }

  /** The redacted URL opens as the URL did. */
  lemma StillOpens(prefix: string, user: string, host: string, rest: string)
    requires Opens(prefix, prefix + (user + "@" + host) + rest)
    ensures Opens(prefix, prefix + ("***" + "@" + host) + rest)
  {
    var url, once := prefix + (user + "@" + host) + rest, prefix + ("***" + "@" + host) + rest;
    hide Contains;
    if |prefix| >= 3 {
      var a, b := (user + "@" + host) + rest, ("***" + "@" + host) + rest;
      assert url == prefix + a && once == prefix + b;
      PrefixOpens(prefix, a, b);
    } else {
      assert url == user + "@" + (host + rest) && once == "***@" + (host + rest);
      StarsHideNothing(user, host + rest);
    }
  }

  /** Redacting twice is redacting once, for every string. */
  lemma RedactIdempotent(url: string)
    ensures Redacted(Redacted(url)) == Redacted(url)
  {
    hide Opens, Redacted, Free, Tail;
    var prefix, authority, rest := Layout(url);
    var at := FindLast(authority, '@');
    if at.Nowhere? {
      CutPlain(prefix, authority, rest);
    } else {
      var user, host := authority[..at.at], authority[at.at + 1..];
      assert authority == user + "@" + host;
      PartsFree(user, host);
      CutUserinfo(prefix, user, host, rest);
      StillOpens(prefix, user, host, rest);
      CutUserinfo(prefix, "***", host, rest);
      assert prefix + ("***" + "@" + host) + rest == prefix + "***@" + host + rest;
    }
  }

  lemma PartsFree(user: string, host: string)
    requires Free(user + "@" + host, '/')
    ensures Free(user, '/') && Free(host, '/') && Free("***", '/')
  {
    var a := user + "@" + host;
    assert forall i :: 0 <= i < |user| ==> a[i] == user[i];
    assert forall i :: 0 <= i < |host| ==> a[|user| + 1 + i] == host[i];
  }

  /** With a scheme, the result does not depend on the userinfo. */
  lemma SchemeUserinfoHidden(scheme: string, user: string, host: string, rest: string)
    requires Find(scheme + MARK, MARK) == Index(|scheme|)
    requires Free(user, '/') && Free(host, '/') && Free(host, '@') && Tail(rest)
    ensures Redacted(scheme + MARK + (user + "@" + host) + rest) == scheme + MARK + "***@" + host + rest
  {
    hide Redacted, Find, Free, Tail;
    var prefix, authority := scheme + MARK, user + "@" + host;
    assert prefix + "" == prefix;
    assert prefix + (authority + rest) == prefix + authority + rest;
    PrefixOpens(prefix, "", authority + rest);
    CutUserinfo(prefix, user, host, rest);
  }

  /** A marker in user@after, when the user has no '/', is one in what follows. */
  lemma MarkerFollows(user: string, after: string, i: nat)
    requires Free(user, '/') && FoundAt(user + "@" + after, MARK, i)
    ensures i > |user| && FoundAt(after, MARK, i - |user| - 1)
  {
    var u := user + "@" + after;
    var w := u[i..i + 3];
    assert u[i] == w[0] == ':' && u[i + 1] == w[1] == '/' && u[i + 2] == w[2] == '/';
    assert u[i..i + 3] == after[i - |user| - 1..i - |user| + 2];
  }

  /** A marker behind a scheme-less authority: the userinfo stays in the result. */
  lemma BareUserinfoKept(user: string, host: string, rest: string)
    requires Free(user, '/') && Contains(host + rest, MARK)
    ensures user + "@" <= Redacted(user + "@" + host + rest)
  {
    var after := host + rest;
    var url := user + "@" + host + rest;
    assert url == user + "@" + after;
    var k: nat :| k <= |after| && FoundAt(after, MARK, k);
    var i := |user| + 1 + k;
    assert url[i..i + 3] == after[k..k + 3];
    assert FoundAt(url, MARK, i);
    var first := Find(url, MARK);
    assert first.Index?;
    MarkerFollows(user, after, first.at);
    var r := Redacted(url);
    assert url[..first.at + 3] <= r;
    assert user + "@" == url[..|user| + 1] == r[..|user| + 1];
  }

  /** Without a marker in what follows, a scheme-less URL has none at all. */
  lemma BareCut(user: string, host: string, rest: string)
    requires Free(user, '/') && Free(host, '/') && Free(host, '@') && Tail(rest) && !Contains(host + rest, MARK)
    ensures Redacted(user + "@" + host + rest) == "***@" + host + rest
  {
    hide Redacted, Tail;
    var url := user + "@" + host + rest;
    assert url == user + "@" + (host + rest) && url == "" + (user + "@" + host) + rest;
    if i: nat :| i <= |url| && FoundAt(url, MARK, i) {
      MarkerFollows(user, host + rest, i);
    }
    hide Contains, Free, FoundAt;
    CutUserinfo("", user, host, rest);
    assert "" + "***@" + host + rest == "***@" + host + rest;
  }

  /** The same layout for every userinfo: what follows it, behind the mark. */
  ghost predicate HiddenBare(host: string, rest: string) {
    forall user | Free(user, '/') :: Redacted(user + "@" + host + rest) == "***@" + host + rest
  }

  lemma BareShown(host: string, rest: string)
    requires Contains(host + rest, MARK)
    ensures !HiddenBare(host, rest)
  {
    hide Redacted, Contains;
    assert Free("", '/');
    BareUserinfoKept("", host, rest);
    var r := Redacted("" + "@" + host + rest);
    assert r[0] == '@' && ("***@" + host + rest)[0] == '*';
  }

  /** Without a scheme the result is independent of the userinfo exactly when no
      marker follows it. */
  lemma BareUserinfoHidden(host: string, rest: string)
    requires Free(host, '/') && Free(host, '@') && Tail(rest)
    ensures HiddenBare(host, rest) <==> !Contains(host + rest, MARK)
  {
    hide Redacted, Contains, Free, Tail;
    if Contains(host + rest, MARK) {
      BareShown(host, rest);
    } else {
      forall user | Free(user, '/')
        ensures Redacted(user + "@" + host + rest) == "***@" + host + rest
      {
        BareCut(user, host, rest);
      }
    }
  }
}
