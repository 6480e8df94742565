/** The acknowledgement lease of a message that a dispatch task holds. */
module Leases {
  import opened Configs

  /** One progress ack: how long the sending call takes, and when it reaches the
      server, both from the moment the keepalive wakes. */
  datatype Beat = Beat(call: real, arrive: real)

  /** Delays on the way: a message takes `lag` to reach its task, a call returns no
      later than its ack arrives, and lag and arrival together take at most `d`. */
  predicate Bounded(lag: real, beats: seq<Beat>, d: real) {
    && 0.0 <= lag <= d
    && forall i :: 0 <= i < |beats| ==> 0.0 <= beats[i].call <= beats[i].arrive && lag + beats[i].arrive <= d
  }

  /** When the keepalive wakes for its n-th ack: it sleeps, sends, and sleeps again. */
  function Wake(interval: real, lag: real, beats: seq<Beat>, n: nat): real
    requires n <= |beats|
  {
    if n == 0 then lag + interval
    else Wake(interval, lag, beats, n - 1) + beats[n - 1].call + interval
  }

  /** Sleeps and calls add up, and the time an ack takes to arrive does not: with calls
      of one length the keepalive wakes in equal steps, whenever its acks arrive. */
  lemma {:induction false} WakesEvenly(interval: real, lag: real, beats: seq<Beat>, call: real, n: nat)
    requires n <= |beats| && forall i :: 0 <= i < |beats| ==> beats[i].call == call
    ensures Wake(interval, lag, beats, n) == lag + interval + n as real * (call + interval)
    ensures n < |beats| ==>
      Reset(interval, lag, beats, n) == lag + interval + n as real * (call + interval) + beats[n].arrive
  {
    if n > 0 {
      WakesEvenly(interval, lag, beats, call, n - 1);
      assert n as real == (n - 1) as real + 1.0;
      OneStepMore((n - 1) as real, call + interval);
    }
  }

  lemma OneStepMore(n: real, step: real)
    ensures (n + 1.0) * step == n * step + step
  {
  }

  /** When the server resets the lease for the n-th time after delivery, at time 0. */
  function Reset(interval: real, lag: real, beats: seq<Beat>, n: nat): real
    requires n < |beats|
  {
    Wake(interval, lag, beats, n) + beats[n].arrive
  }

  /** At time t the message was delivered, or its lease reset, less than AckWait ago. */
  ghost predicate Leased(interval: real, lag: real, beats: seq<Beat>, wait: real, t: real) {
    || t < wait
    || exists i :: 0 <= i < |beats| && Reset(interval, lag, beats, i) <= t < Reset(interval, lag, beats, i) + wait
  }

  /** The keepalive loop, as long as its task lives: the times its acks take effect. */
  method Keepalive(interval: real, lag: real, beats: seq<Beat>) returns (resets: seq<real>)
    ensures |resets| == |beats|
    ensures forall i :: 0 <= i < |beats| ==> resets[i] == Reset(interval, lag, beats, i)
  {
    resets := [];
    var now := lag;
    for i := 0 to |beats|
      invariant |resets| == i
      invariant now + interval == Wake(interval, lag, beats, i)
      invariant forall j :: 0 <= j < i ==> resets[j] == Reset(interval, lag, beats, j)
    {
      now := now + interval;
      resets := resets + [now + beats[i].arrive];
      now := now + beats[i].call;
    }
  }

  /** The lease holds from the n-th reset, or from delivery, up to any moment by
      which no further reset could be late. */
  lemma {:induction false} LeaseUpTo(interval: real, lag: real, beats: seq<Beat>, wait: real, d: real, t: real, n: nat)
    requires Bounded(lag, beats, d) && interval >= 0.0 && interval + d <= wait
    requires n <= |beats| && 0.0 <= t
    requires if n == |beats| then t < Wake(interval, lag, beats, n) else t < Reset(interval, lag, beats, n)
    ensures Leased(interval, lag, beats, wait, t)
  {
    if n > 0 {
      var r := Reset(interval, lag, beats, n - 1);
      if r <= t {
        assert t < r + wait;
      } else {
        LeaseUpTo(interval, lag, beats, wait, d, t, n - 1);
      }
    }
  }

  /** A message held by a live task is never redelivered, however long its handler
      or its wait for a permit, for every pattern of delays within `d`, exactly
      when interval and delay fit in AckWait. */
  lemma LeaseNeverLapses(interval: real, wait: real, d: real)
    requires interval >= 0.0 && wait >= 0.0 && d >= 0.0
    ensures interval + d <= wait <==>
      forall lag, beats, t ::
        Bounded(lag, beats, d) && 0.0 <= t < Wake(interval, lag, beats, |beats|) ==> Leased(interval, lag, beats, wait, t)
  {
    if interval + d <= wait {
      forall lag, beats, t | Bounded(lag, beats, d) && 0.0 <= t < Wake(interval, lag, beats, |beats|)
        ensures Leased(interval, lag, beats, wait, t)
      {
        LeaseUpTo(interval, lag, beats, wait, d, t, |beats|);
      }
    } else {
      var beats := [Beat(d, d)];
      assert Bounded(0.0, beats, d);
      assert Wake(interval, 0.0, beats, 0) == interval;
      assert Wake(interval, 0.0, beats, 1) == interval + d + interval;
      assert Reset(interval, 0.0, beats, 0) == interval + d;
      assert !Leased(interval, 0.0, beats, wait, wait);
    }
  }

  /** Validation alone leaves room for any delay of up to one second. */
  lemma ValidatedLeaseHolds(c: DaemonConfig, lag: real, beats: seq<Beat>, t: real)
    requires c.Validate().Ok? && Bounded(lag, beats, 1.0)
    requires 0.0 <= t < Wake(c.ackProgressSecs as real, lag, beats, |beats|)
    ensures Leased(c.ackProgressSecs as real, lag, beats, c.ackWaitSecs as real, t)
  {
    LeaseUpTo(c.ackProgressSecs as real, lag, beats, c.ackWaitSecs as real, 1.0, t, |beats|);
  }
}
