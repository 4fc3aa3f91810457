/** The worker's heartbeat, and why it stops its own execution before its lease can run out. */
module Heartbeats {
  import opened Common

  /** How one renewal ended for the worker. A call may fail for the worker although the database renewed the lease. */
  datatype Outcome = Renewed | Refused | Failed(stored: bool)

  /** One round trip: sent, applied by the database, returned to the worker. */
  datatype Beat = Beat(sent: real, applied: real, returned: real, outcome: Outcome)

  /** `interval` between beats, `lease` granted, `delay` bounding every round trip. */
  datatype Timing = Timing(interval: real, lease: real, delay: real)

  predicate Positive(t: Timing) {
    t.interval > 0.0 && t.lease > 0.0 && t.delay >= 0.0
  }

  /** What the settings check before a worker may run. */
  predicate SettingsOk(t: Timing) {
    t.interval > 0.0 && t.lease >= 3.0 * t.interval
  }

  /** Each beat is sent one interval after the last one returned. */
  predicate TimedBeat(t: Timing, before: real, beat: Beat) {
    && beat.sent == before + t.interval
    && beat.sent <= beat.applied <= beat.returned <= beat.sent + t.delay
  }

  predicate Timed(t: Timing, start: real, beats: seq<Beat>) {
    forall i | 0 <= i < |beats| :: TimedBeat(t, LastReturn(start, beats[..i]), beats[i])
  }

  function LastReturn(start: real, beats: seq<Beat>): real {
    if beats == [] then start else beats[|beats| - 1].returned
  }

  lemma TimedPrefix(t: Timing, start: real, beats: seq<Beat>, n: nat)
    requires Timed(t, start, beats) && n <= |beats|
    ensures Timed(t, start, beats[..n])
  {
    forall i | 0 <= i < n ensures TimedBeat(t, LastReturn(start, beats[..n][..i]), beats[..n][i]) {
      assert beats[..n][..i] == beats[..i];
    }
  }

  /** When the worker last knew that it held the lease. */
  function Confirmed(start: real, beats: seq<Beat>): real {
    if beats == [] then start
    else
      var last := beats[|beats| - 1];
      if last.outcome.Renewed? then last.returned else Confirmed(start, beats[..|beats| - 1])
  }

  /** When the lease stored in the database runs out. */
  function Expiry(t: Timing, claimed: real, beats: seq<Beat>): real {
    if beats == [] then claimed + t.lease
    else
      var last := beats[|beats| - 1];
      if last.outcome.Renewed? || (last.outcome.Failed? && last.outcome.stored) then last.applied + t.lease
      else Expiry(t, claimed, beats[..|beats| - 1])
  }

  /** The worker gives up after a refusal, or after a failure half a lease past the last confirmation. */
  predicate StopsAt(t: Timing, start: real, beats: seq<Beat>, k: nat)
    requires k < |beats|
  {
    match beats[k].outcome
    case Renewed => false
    case Refused => true
    case Failed(_) => beats[k].returned - Confirmed(start, beats[..k]) >= t.lease / 2.0
  }

  predicate Running(t: Timing, start: real, beats: seq<Beat>, n: nat)
    requires n <= |beats|
  {
    forall k: nat | k < n :: !StopsAt(t, start, beats, k)
  }

  /** The loop; `beats` are the round trips that happen until the execution is done. */
  method Heartbeat(t: Timing, start: real, beats: seq<Beat>) returns (cancelled: Option<nat>)
    ensures cancelled.None? <==> Running(t, start, beats, |beats|)
    ensures cancelled.Some? ==> cancelled.value < |beats| && StopsAt(t, start, beats, cancelled.value)
    ensures cancelled.Some? ==> Running(t, start, beats, cancelled.value)
  {
    var lastConfirmed := start;
    var i := 0;
    while i < |beats|
      invariant 0 <= i <= |beats| && lastConfirmed == Confirmed(start, beats[..i]) && Running(t, start, beats, i)
    {
      var beat := beats[i];
      assert beats[..i + 1][..i] == beats[..i];
      match beat.outcome {
        case Renewed => lastConfirmed := beat.returned;
        case Refused =>
          assert StopsAt(t, start, beats, i);
          return Some(i);
        case Failed(_) =>
          if beat.returned - lastConfirmed >= t.lease / 2.0 {
            assert StopsAt(t, start, beats, i);
            return Some(i);
          }
      }
      i := i + 1;
    }
    return None;
  }

  /** The database has applied the renewal, whether or not the worker learnt of it. */
  predicate Stored(beat: Beat) {
    beat.outcome in {Renewed, Failed(true)}
  }

  /** The stored lease runs from the last renewal that was applied, known to the worker or not. */
  lemma {:induction false} ExpiryFromLastStored(t: Timing, claimed: real, beats: seq<Beat>)
    ensures (forall i | 0 <= i < |beats| :: !Stored(beats[i])) ==> Expiry(t, claimed, beats) == claimed + t.lease
    ensures forall i | 0 <= i < |beats| && Stored(beats[i]) && (forall k | i < k < |beats| :: !Stored(beats[k])) ::
      Expiry(t, claimed, beats) == beats[i].applied + t.lease
  {
    if beats != [] {
      var n := |beats| - 1;
      ExpiryFromLastStored(t, claimed, beats[..n]);
      if !Stored(beats[n]) {
        forall i | 0 <= i < n && Stored(beats[i]) && (forall k | i < k < |beats| :: !Stored(beats[k]))
          ensures Expiry(t, claimed, beats) == beats[i].applied + t.lease
        {
          assert beats[..n][i] == beats[i];
        }
      }
    }
  }

  // ---- The stored lease outlives the worker's patience ----

  /** The lease stored runs at least until one lease after the last confirmation, less one round trip. */
  lemma {:induction false} ExpiryFromConfirmed(t: Timing, claimed: real, start: real, beats: seq<Beat>)
    requires Positive(t) && Timed(t, start, beats) && claimed <= start <= claimed + t.delay
    ensures Expiry(t, claimed, beats) >= Confirmed(start, beats) - t.delay + t.lease
    ensures Confirmed(start, beats) <= LastReturn(start, beats)
  {
    if beats != [] {
      var n := |beats| - 1;
      TimedPrefix(t, start, beats, n);
      assert TimedBeat(t, LastReturn(start, beats[..n]), beats[n]);
      ExpiryFromConfirmed(t, claimed, start, beats[..n]);
    }
  }

  /** As long as the worker runs on, less than half a lease has passed since its last confirmation. */
  lemma PatienceLeft(t: Timing, start: real, beats: seq<Beat>, n: nat)
    requires Positive(t) && Timed(t, start, beats) && n <= |beats| && Running(t, start, beats, n)
    ensures LastReturn(start, beats[..n]) - Confirmed(start, beats[..n]) < t.lease / 2.0
  {
    if n > 0 {
      assert beats[..n][..n - 1] == beats[..n - 1] && beats[..n][n - 1] == beats[n - 1];
      assert !StopsAt(t, start, beats, n - 1);
    }
  }

  // ---- Exactly when the worker is always in time ----

  /** A worker that has claimed within one round trip, beaten as prescribed, and run on until beat k. */
  predicate Schedule(t: Timing, claimed: real, start: real, beats: seq<Beat>, k: nat) {
    && claimed <= start <= claimed + t.delay
    && Timed(t, start, beats) && k < |beats| && Running(t, start, beats, k)
  }

  /** Whatever happens to the beats, each returns while the lease stored before it is alive: the lease is renewed in
      time, or the worker has asked to stop in time. */
  ghost predicate AlwaysInTime(t: Timing) {
    forall claimed, start, beats: seq<Beat>, k: nat | Schedule(t, claimed, start, beats, k) ::
      beats[k].returned < Expiry(t, claimed, beats[..k])
  }

  /** Either one more beat fits between half a lease and its end, or the beats that fit into half a lease, however slow,
      leave room for one more. */
  ghost predicate Tolerable(t: Timing) {
    || t.interval + 2.0 * t.delay <= t.lease / 2.0
    || forall n: nat | Times(n, t.interval) < t.lease / 2.0 :: Times(n, t.interval + t.delay) + t.interval + 2.0 * t.delay < t.lease
  }

  function Times(n: nat, x: real): real {
    if n == 0 then 0.0 else Times(n - 1, x) + x
  }

  /** Beats since the last confirmation. */
  function Failures(beats: seq<Beat>): nat {
    if beats == [] || beats[|beats| - 1].outcome.Renewed? then 0 else Failures(beats[..|beats| - 1]) + 1
  }

  lemma {:induction false} FailuresTakeTime(t: Timing, start: real, beats: seq<Beat>)
    requires Positive(t) && Timed(t, start, beats)
    ensures Times(Failures(beats), t.interval) <= LastReturn(start, beats) - Confirmed(start, beats)
    ensures LastReturn(start, beats) - Confirmed(start, beats) <= Times(Failures(beats), t.interval + t.delay)
  {
    if beats != [] {
      var n := |beats| - 1;
      TimedPrefix(t, start, beats, n);
      assert TimedBeat(t, LastReturn(start, beats[..n]), beats[n]);
      FailuresTakeTime(t, start, beats[..n]);
    }
  }

  lemma TolerableIsInTime(t: Timing, claimed: real, start: real, beats: seq<Beat>, k: nat)
    requires Positive(t) && Tolerable(t) && Schedule(t, claimed, start, beats, k)
    ensures beats[k].returned < Expiry(t, claimed, beats[..k])
  {
    TimedPrefix(t, start, beats, k);
    assert TimedBeat(t, LastReturn(start, beats[..k]), beats[k]);
    ExpiryFromConfirmed(t, claimed, start, beats[..k]);
    PatienceLeft(t, start, beats, k);
    FailuresTakeTime(t, start, beats[..k]);
  }

  lemma {:induction false} TimesSpread(n: nat, x: real, extra: real)
    ensures Times(n, x + extra) == Times(n, x) + Times(n, extra)
    ensures Times(n, extra) == n as real * extra
  {
    if n > 0 { TimesSpread(n - 1, x, extra); }
  }

  lemma {:induction false} TimesGrows(i: nat, n: nat, x: real)
    requires i <= n && x >= 0.0
    ensures Times(i, x) <= Times(n, x)
  {
    if i < n { TimesGrows(i, n - 1, x); }
  }

  /** n failing beats of equal length `pace`, then one as slow as it may be. */
  function SlowBeats(t: Timing, n: nat, pace: real): (beats: seq<Beat>)
    ensures |beats| == n + 1
  {
    seq(n + 1, i requires 0 <= i < n + 1 =>
      var sent := t.delay + Times(i, pace) + t.interval;
      Beat(sent, sent, if i < n then t.delay + Times(i + 1, pace) else sent + t.delay, Failed(false)))
  }

  lemma {:induction false} NeverRenewed(t: Timing, start: real, claimed: real, beats: seq<Beat>)
    requires forall i | 0 <= i < |beats| :: beats[i].outcome == Failed(false)
    ensures Confirmed(start, beats) == start && Expiry(t, claimed, beats) == claimed + t.lease
  {
    if beats != [] { NeverRenewed(t, start, claimed, beats[..|beats| - 1]); }
  }

  lemma SlowBeatsTimed(t: Timing, n: nat, pace: real)
    requires Positive(t) && t.interval <= pace <= t.interval + t.delay
    ensures Timed(t, t.delay, SlowBeats(t, n, pace))
  {
    var beats := SlowBeats(t, n, pace);
    forall i | 0 <= i < |beats| ensures TimedBeat(t, LastReturn(t.delay, beats[..i]), beats[i]) {
      if i > 0 { assert beats[..i][i - 1] == beats[i - 1]; }
    }
  }

  lemma SlowBeatsRun(t: Timing, n: nat, pace: real)
    requires Positive(t) && pace >= 0.0 && Times(n, pace) < t.lease / 2.0
    ensures Running(t, t.delay, SlowBeats(t, n, pace), n)
  {
    var beats := SlowBeats(t, n, pace);
    forall k: nat | k < n ensures !StopsAt(t, t.delay, beats, k) {
      NeverRenewed(t, t.delay, 0.0, beats[..k]);
      TimesGrows(k + 1, n, pace);
    }
  }

  lemma Quotient(a: real, n: real, d: real)
    requires n > 0.0 && 0.0 <= a <= n * d
    ensures 0.0 <= a / n <= d && n * (a / n) == a
  {}

  /** A pace at which n beats take at least `need`, and still less than half a lease. */
  lemma ChoosePace(t: Timing, n: nat, need: real) returns (pace: real)
    requires Positive(t) && Times(n, t.interval) < t.lease / 2.0 && need < t.lease / 2.0
    requires Times(n, t.interval + t.delay) >= need
    ensures t.interval <= pace <= t.interval + t.delay && need <= Times(n, pace) < t.lease / 2.0
  {
    pace := t.interval;
    if n > 0 && need > Times(n, t.interval) {
      var missing := need - Times(n, t.interval);
      TimesSpread(n, t.interval, t.delay);
      Quotient(missing, n as real, t.delay);
      TimesSpread(n, t.interval, missing / n as real);
      pace := t.interval + missing / n as real;
    }
  }

  /** When the timing is not tolerable, some schedule brings the worker past its lease. */
  lemma IntolerableIsLate(t: Timing) returns (beats: seq<Beat>, k: nat)
    requires Positive(t) && !Tolerable(t)
    ensures Schedule(t, 0.0, t.delay, beats, k) && beats[k].returned >= Expiry(t, 0.0, beats[..k])
  {
    var n: nat :| Times(n, t.interval) < t.lease / 2.0
                  && Times(n, t.interval + t.delay) + t.interval + 2.0 * t.delay >= t.lease;
    var pace := ChoosePace(t, n, t.lease - t.interval - 2.0 * t.delay);
    beats, k := SlowBeats(t, n, pace), n;
    SlowBeatsTimed(t, n, pace);
    SlowBeatsRun(t, n, pace);
    NeverRenewed(t, t.delay, 0.0, beats[..n]);
  }

  /** The worker always stops before its lease can run out exactly when its timing is tolerable. */
  lemma StopsBeforeExpiryIff(t: Timing)
    requires Positive(t)
    ensures AlwaysInTime(t) <==> Tolerable(t)
  {
    if Tolerable(t) {
      forall claimed, start, beats: seq<Beat>, k: nat | Schedule(t, claimed, start, beats, k)
        ensures beats[k].returned < Expiry(t, claimed, beats[..k])
      {
        TolerableIsInTime(t, claimed, start, beats, k);
      }
    } else {
      var beats, k := IntolerableIsLate(t);
    }
  }

  /** The settings alone do not guarantee it: with slow round trips a worker may notice only after its lease ran out. */
  lemma SettingsAloneDoNotSuffice()
    ensures SettingsOk(Timing(10.0, 30.0, 5.0)) && !AlwaysInTime(Timing(10.0, 30.0, 5.0))
  {
    var t := Timing(10.0, 30.0, 5.0);
    assert Times(1, t.interval) == 10.0 && Times(1, t.interval + t.delay) == 15.0;
    StopsBeforeExpiryIff(t);
  }
}
