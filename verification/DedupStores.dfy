/** The completed-event store: a timed table keyed by agent and event. */
module DedupStores {
  import opened Common
  import opened Configs

  type Rows = map<Key, int>

  const I64_LIMIT: nat := 0x8000_0000_0000_0000

  /** Seconds since the epoch, from a clock that may be finer; 0 before the epoch. */
  function UnixNow(now: real): nat {
    if now < 0.0 then 0 else now.Floor
  }

  /** The cast from an unsigned to a signed 64-bit integer. */
  function AsI64(n: nat): int
    requires n <= U64_MAX
  {
    if n < I64_LIMIT then n else n - U64_MAX - 1
  }

  /** Clock readings in unsigned 64-bit seconds. */
  predicate Readable(now: real) { UnixNow(now) <= U64_MAX }

  /** Clock readings that the table's signed column holds as they are: all until
      some 292 thousand million years after the epoch. */
  predicate OnClock(now: real) { UnixNow(now) < I64_LIMIT }

  function Stamp(now: real): int
    requires Readable(now)
  {
    AsI64(UnixNow(now))
  }

  /** Rows stamped before this go: saturating at the epoch. */
  function Cutoff(now: real, ttl: nat): int
    requires Readable(now)
  {
    AsI64(if UnixNow(now) >= ttl then UnixNow(now) - ttl else 0)
  }

  function MarkRow(rows: Rows, k: Key, now: real): Rows
    requires Readable(now)
  {
    if k in rows then rows else rows[k := Stamp(now)]
  }

  function PurgeRows(rows: Rows, ttl: nat, now: real): Rows
    requires Readable(now)
  {
    map k | k in rows && !(rows[k] < Cutoff(now, ttl)) :: rows[k]
  }

  class DedupStore {
    const ttl: nat
    var rows: Rows
    /** Every mark and purge that went through. */
    ghost var history: seq<Event>

    /** The table is what its history leaves. */
    ghost predicate Valid()
      reads this
    {
      ttl <= U64_MAX && Timed(history) && rows == Play(map[], history, ttl)
    }

    constructor (ttl: nat)
      requires ttl <= U64_MAX
      ensures Valid() && this.ttl == ttl && history == []
    {
      this.ttl := ttl;
      rows, history := map[], [];
    }

    /** None is a store error.  Otherwise the pair is completed exactly when some mark
        of it, that found no row, has not been passed by a later purge. */
    method IsCompleted(agent: string, event: string, broken: bool) returns (found: Option<bool>)
      requires Valid()
      ensures found.None? <==> broken
      ensures found.Some? ==> (found.value <==> exists i :: Stands(history, ttl, Key(agent, event), i))
    {
      RecordedExactly(history, ttl, Key(agent, event));
      if broken {
        return None;
      }
      return Some(Key(agent, event) in rows);
    }

    /** Insert or ignore: an earlier completion keeps its time. */
    method MarkCompleted(agent: string, event: string, now: real, broken: bool) returns (ok: bool)
      requires Valid() && Readable(now)
      modifies this
      ensures Valid() && (ok <==> !broken)
      ensures rows == if broken then old(rows) else MarkRow(old(rows), Key(agent, event), now)
      ensures history == if broken then old(history) else old(history) + [Marked(Key(agent, event), now)]
    {
      var stamp := AsI64(UnixNow(now));
      if broken {
        return false;
      }
      var key := Key(agent, event);
      if key !in rows {
        rows := rows[key := stamp];
      }
      PlayNext(map[], history, Marked(key, now), ttl);
      history := history + [Marked(key, now)];
      return true;
    }

    method PurgeExpired(now: real, broken: bool) returns (purged: Option<nat>)
      requires Valid() && Readable(now)
      modifies this
      ensures Valid() && (purged.None? <==> broken)
      ensures rows == if broken then old(rows) else PurgeRows(old(rows), ttl, now)
      ensures purged.Some? ==> |rows| + purged.value == |old(rows)|
      ensures history == if broken then old(history) else old(history) + [Purged(now)]
    {
      var seconds := UnixNow(now);
      var cutoff := AsI64(if seconds >= ttl then seconds - ttl else 0);
      if broken {
        return None;
      }
      var kept := map k | k in rows && !(rows[k] < cutoff) :: rows[k];
      KeptCount(rows, kept);
      purged := Some(|rows| - |kept|);
      rows := kept;
      PlayNext(map[], history, Purged(now), ttl);
      history := history + [Purged(now)];
    }
  }

  lemma KeptCount(rows: Rows, kept: Rows)
    requires kept.Keys <= rows.Keys
    ensures |kept| <= |rows|
  {
    assert rows.Keys == kept.Keys + (rows.Keys - kept.Keys);
    assert |rows| == |rows.Keys| && |kept| == |kept.Keys|;
  }

  // ---- histories -----------------------------------------------------------

  datatype Event = Marked(key: Key, at: real) | Purged(at: real)

  predicate Timed(h: seq<Event>) { forall i :: 0 <= i < |h| ==> Readable(h[i].at) }

  predicate Signed(h: seq<Event>) { forall i :: 0 <= i < |h| ==> OnClock(h[i].at) }

  lemma PlayNext(rows: Rows, h: seq<Event>, e: Event, ttl: nat)
    requires Timed(h) && Readable(e.at)
    ensures Timed(h + [e])
    ensures Play(rows, h + [e], ttl) == PlayOne(Play(rows, h, ttl), e, ttl)
  {
    assert (h + [e])[..|h|] == h;
  }

  function PlayOne(rows: Rows, e: Event, ttl: nat): Rows
    requires Readable(e.at)
  {
    if e.Marked? then MarkRow(rows, e.key, e.at) else PurgeRows(rows, ttl, e.at)
  }

  function Play(rows: Rows, h: seq<Event>, ttl: nat): Rows
    requires Timed(h)
  {
    if h == [] then rows else PlayOne(Play(rows, h[..|h| - 1], ttl), h[|h| - 1], ttl)
  }

  /** A message published at one time is still in the stream at another. */
  predicate Retained(published: real, now: real, maxAge: real) { now - published <= maxAge }

  /** Whole-second truncation on both sides: a row is purged only when strictly
      more than the retention has passed since its completion. */
  lemma PurgedMeansOlder(completed: real, now: real, ttl: nat)
    requires OnClock(completed) && OnClock(now) && Stamp(completed) < Cutoff(now, ttl)
    ensures now - completed > ttl as real
  {
    assert UnixNow(now) >= ttl + UnixNow(completed) + 1;
    assert now >= UnixNow(now) as real;
    assert completed < UnixNow(completed) as real + 1.0;
  }

  // ---- what a lookup finds -------------------------------------------------

  /** A mark that found no row, whose time no later purge has passed. */
  predicate Stands(h: seq<Event>, ttl: nat, k: Key, i: nat)
    requires Timed(h)
  {
    && i < |h| && h[i].Marked? && h[i].key == k && k !in Play(map[], h[..i], ttl)
    && forall j :: i < j < |h| && h[j].Purged? ==> !(Stamp(h[i].at) < Cutoff(h[j].at, ttl))
  }

  lemma {:induction false} StandsRecorded(h: seq<Event>, ttl: nat, k: Key, i: nat)
    requires Timed(h) && Stands(h, ttl, k, i)
    ensures k in Play(map[], h, ttl) && Play(map[], h, ttl)[k] == Stamp(h[i].at)
  {
    var front := h[..|h| - 1];
    if i < |h| - 1 {
      assert front[..i] == h[..i];
      StandsRecorded(front, ttl, k, i);
    }
  }

  lemma {:induction false} RecordedStands(h: seq<Event>, ttl: nat, k: Key) returns (i: nat)
    requires Timed(h) && k in Play(map[], h, ttl)
    ensures Stands(h, ttl, k, i)
  {
    var front := h[..|h| - 1];
    if k in Play(map[], front, ttl) {
      i := RecordedStands(front, ttl, k);
      assert front[..i] == h[..i];
      StandsRecorded(front, ttl, k, i);
    } else {
      i := |h| - 1;
    }
  }

  /** After any marks and purges, a lookup finds the pair exactly when some mark that
      found no row still stands. */
  lemma RecordedExactly(h: seq<Event>, ttl: nat, k: Key)
    requires Timed(h)
    ensures k in Play(map[], h, ttl) <==> exists i :: Stands(h, ttl, k, i)
  {
    if k in Play(map[], h, ttl) {
      var i := RecordedStands(h, ttl, k);
    }
    if i :| Stands(h, ttl, k, i) {
      StandsRecorded(h, ttl, k, i);
    }
  }

  // ---- records and retained messages ---------------------------------------

  /** The retention reaches, in whole seconds, to the end of the message's stay. */
  predicate Reaches(published: real, completed: real, ttl: nat, maxAge: real) {
    UnixNow(published + maxAge) <= UnixNow(completed) + ttl
  }

  /** A record that reaches outlives the message: whatever marks and purges follow
      the completion, the record is there, with its first time, while the message
      is retained. */
  lemma {:induction false} RecordOutlivesMessage(rows: Rows, h: seq<Event>, ttl: nat, k: Key, completed: real, published: real, now: real, maxAge: real)
    requires Timed(h) && Signed(h) && OnClock(completed) && k in rows && rows[k] == Stamp(completed)
    requires Reaches(published, completed, ttl, maxAge)
    requires forall i :: 0 <= i < |h| ==> h[i].at <= now
    requires Retained(published, now, maxAge)
    ensures k in Play(rows, h, ttl) && Play(rows, h, ttl)[k] == Stamp(completed)
  {
    if h != [] {
      RecordOutlivesMessage(rows, h[..|h| - 1], ttl, k, completed, published, now, maxAge);
      Later(h[|h| - 1].at, published + maxAge);
    }
  }

  lemma Later(t: real, u: real)
    requires t <= u
    ensures UnixNow(t) <= UnixNow(u)
  {
  }

  /** The record of a completion is not purged at `now`, or the message is gone. */
  ghost predicate KeptFor(published: real, completed: real, now: real, ttl: nat, maxAge: real) {
    OnClock(completed) && OnClock(now) && Retained(published, now, maxAge) ==> !(Stamp(completed) < Cutoff(now, ttl))
  }

  /** A message, published before or after the completion its id is recorded with,
      is covered for the whole of its stay exactly when the retention reaches. */
  lemma CoveredExactly(published: real, completed: real, ttl: nat, maxAge: real)
    requires OnClock(completed) && OnClock(published + maxAge)
    ensures (forall now: real :: KeptFor(published, completed, now, ttl, maxAge)) <==> Reaches(published, completed, ttl, maxAge)
  {
    var end := published + maxAge;
    if Reaches(published, completed, ttl, maxAge) {
      forall now: real
        ensures KeptFor(published, completed, now, ttl, maxAge)
      {
        if now <= end {
          Later(now, end);
        }
      }
    } else {
      assert Retained(published, end, maxAge);
      assert !KeptFor(published, completed, end, ttl, maxAge);
    }
  }

  /** The row of a completion is not purged at `now` if a message published by
      then, at `published`, is still retained. */
  ghost predicate NotTaken(published: real, completed: real, now: real, ttl: nat, maxAge: nat) {
    published <= completed <= now && OnClock(completed) && OnClock(now) && Retained(published, now, maxAge as real)
    ==> !(Stamp(completed) < Cutoff(now, ttl))
  }

  /** No purge takes a record while a message published by its first completion
      is retained, for all times, exactly when the retention covers the stream's. */
  lemma PurgeSafeExactly(ttl: nat, maxAge: nat)
    requires maxAge < I64_LIMIT
    ensures ttl >= maxAge <==> forall published: real, completed: real, now: real :: NotTaken(published, completed, now, ttl, maxAge)
  {
    if ttl >= maxAge {
      forall published: real, completed: real, now: real ensures NotTaken(published, completed, now, ttl, maxAge) {
        if OnClock(completed) && OnClock(now) && Stamp(completed) < Cutoff(now, ttl) {
          PurgedMeansOlder(completed, now, ttl);
        }
      }
    } else {
      var now := maxAge as real;
      assert UnixNow(now) == maxAge && UnixNow(0.0) == 0;
      assert OnClock(now) && Stamp(0.0) == 0 && Cutoff(now, ttl) == maxAge - ttl;
      assert !NotTaken(0.0, 0.0, now, ttl, maxAge);
    }
  }

  /** With the stream the daemon's own tool creates, seven days cover the messages
      published by the completion, and each day more covers a day of later ones. */
  lemma CoveredByDays(c: DaemonConfig, rows: Rows, h: seq<Event>, k: Key, completed: real, published: real, now: real)
    requires c.dedupTtlDays <= 213503982334601
    requires published + 604800.0 <= completed + (c.dedupTtlDays * 86400) as real
    requires Timed(h) && Signed(h) && OnClock(completed) && k in rows && rows[k] == Stamp(completed)
    requires (forall i :: 0 <= i < |h| ==> h[i].at <= now) && Retained(published, now, 604800.0)
    ensures k in Play(rows, h, c.DedupTtl()) && Play(rows, h, c.DedupTtl())[k] == Stamp(completed)
  {
    TtlInDays(c);
    Later(published + STREAM_MAX_AGE as real, completed + c.DedupTtl() as real);
    WholeSeconds(completed, c.DedupTtl());
    RecordOutlivesMessage(rows, h, c.DedupTtl(), k, completed, published, now, STREAM_MAX_AGE as real);
  }

  /** With more days than fit, nothing is ever purged. */
  lemma EndlessRetention(c: DaemonConfig, rows: Rows, now: real)
    requires c.dedupTtlDays > 213503982334601 && OnClock(now)
    requires forall k :: k in rows ==> rows[k] >= 0
    ensures PurgeRows(rows, c.DedupTtl(), now) == rows
  {
    TtlInDays(c);
    assert Cutoff(now, c.DedupTtl()) == 0;
  }

  lemma PurgeSafeBySevenDays(c: DaemonConfig, rows: Rows, h: seq<Event>, k: Key, completed: real, published: real, now: real)
    requires c.dedupTtlDays >= 7 && published <= completed
    requires Timed(h) && Signed(h) && OnClock(completed) && k in rows && rows[k] == Stamp(completed)
    requires (forall i :: 0 <= i < |h| ==> h[i].at <= now) && Retained(published, now, STREAM_MAX_AGE as real)
    ensures k in Play(rows, h, c.DedupTtl())
  {
    TtlCoversStream(c);
    Later(published + STREAM_MAX_AGE as real, completed + STREAM_MAX_AGE as real);
    WholeSeconds(completed, STREAM_MAX_AGE);
    RecordOutlivesMessage(rows, h, c.DedupTtl(), k, completed, published, now, STREAM_MAX_AGE as real);
  }

  lemma WholeSeconds(t: real, n: nat)
    ensures UnixNow(t + n as real) <= UnixNow(t) + n
  {
    if t + n as real >= 0.0 {
      assert (t + n as real).Floor == t.Floor + n;
    }
  }
}
