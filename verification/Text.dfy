/** Splitting and joining strings, and finding one inside another. */
module Text {

  predicate Free(s: string, sep: char) { forall i :: 0 <= i < |s| ==> s[i] != sep }

  function Split(s: string, sep: char): (ts: seq<string>)
    ensures |ts| >= 1
  {
    if s == "" then [""]
    else
      var rest := Split(s[1..], sep);
      if s[0] == sep then [""] + rest else [[s[0]] + rest[0]] + rest[1..]
  }

  function Join(ts: seq<string>, sep: char): string
    requires |ts| >= 1
  {
    if |ts| == 1 then ts[0] else ts[0] + [sep] + Join(ts[1..], sep)
  }

  lemma {:induction false} SplitFree(s: string, sep: char)
    requires Free(s, sep)
    ensures Split(s, sep) == [s]
  {
    if s != "" {
      SplitFree(s[1..], sep);
      assert [s[0]] + s[1..] == s;
    }
  }

  lemma {:induction false} SplitFirst(t: string, rest: string, sep: char)
    requires Free(t, sep)
    ensures Split(t + [sep] + rest, sep) == [t] + Split(rest, sep)
  {
    var s := t + [sep] + rest;
    if t == "" {
      assert s[1..] == rest;
    } else {
      SplitFirst(t[1..], rest, sep);
      assert s[1..] == t[1..] + [sep] + rest;
      var more := [t[1..]] + Split(rest, sep);
      assert more[1..] == Split(rest, sep) && [s[0]] + t[1..] == t;
    }
  }

  lemma {:induction false} SplitJoin(ts: seq<string>, sep: char)
    requires |ts| >= 1 && forall i :: 0 <= i < |ts| ==> Free(ts[i], sep)
    ensures Split(Join(ts, sep), sep) == ts
  {
    if |ts| == 1 {
      SplitFree(ts[0], sep);
    } else {
      SplitJoin(ts[1..], sep);
      SplitFirst(ts[0], Join(ts[1..], sep), sep);
    }
  }

  lemma {:induction false} JoinSplit(s: string, sep: char)
    ensures Join(Split(s, sep), sep) == s
    ensures forall i :: 0 <= i < |Split(s, sep)| ==> Free(Split(s, sep)[i], sep)
  {
    if s != "" {
      JoinSplit(s[1..], sep);
      var rest := Split(s[1..], sep);
      var all := Split(s, sep);
      if s[0] == sep {
        assert all[1..] == rest;
        assert [sep] + s[1..] == s;
      } else {
        assert all[1..] == rest[1..];
        assert [s[0]] + s[1..] == s;
      }
    }
  }

  /** The pattern stands in the text at an index. */
  predicate FoundAt(s: string, pat: string, i: nat) {
    i + |pat| <= |s| && s[i..i + |pat|] == pat
  }

  predicate Contains(s: string, pat: string) { exists i: nat :: i <= |s| && FoundAt(s, pat, i) }

  datatype Index = Nowhere | Index(at: nat)

  /** The first occurrence, searched for from an index on. */
  function FindFrom(s: string, pat: string, i: nat): (r: Index)
    requires i <= |s|
    ensures r.Index? ==> i <= r.at && FoundAt(s, pat, r.at) && forall j :: i <= j < r.at ==> !FoundAt(s, pat, j)
    ensures r.Nowhere? ==> forall j :: i <= j ==> j <= |s| ==> !FoundAt(s, pat, j)
    decreases |s| - i
  {
    if FoundAt(s, pat, i) then Index(i)
    else if i == |s| then Nowhere
    else FindFrom(s, pat, i + 1)
  }

  function Find(s: string, pat: string): Index { FindFrom(s, pat, 0) }

  /** The last occurrence of a character. */
  function FindLast(s: string, c: char): (r: Index)
    ensures r.Index? ==> r.at < |s| && s[r.at] == c && Free(s[r.at + 1..], c)
    ensures r.Nowhere? ==> Free(s, c)
  {
    if s == "" then Nowhere
    else if s[|s| - 1] == c then Index(|s| - 1)
    else FindLast(s[..|s| - 1], c)
  }

  lemma FindIs(s: string, pat: string, i: nat)
    requires FoundAt(s, pat, i) && forall j :: 0 <= j < i ==> !FoundAt(s, pat, j)
    ensures Find(s, pat) == Index(i)
  {
  }

  lemma FindLastIs(s: string, c: char, i: nat)
    requires i < |s| && s[i] == c && Free(s[i + 1..], c)
    ensures FindLast(s, c) == Index(i)
  {
  }
}
