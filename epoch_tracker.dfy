/**
 * EpochTracker: the epoch index derived from the wall clock, the time left
 * to the next epoch boundary, and the wait for that boundary (plus the
 * configured flush offset) in sleeps of at most a minute, each followed by
 * a countdown line while time remains.
 *
 * The clock is a parameter `nowMs` (a reading of `Date.now()`, in
 * milliseconds); the chain-provided durations are the values read at start-up.
 */
module EpochTracker {
  import opened Common

  /** Longest single sleep of the countdown, in seconds. */
  const MaxSleepChunk: nat := 60

  /** Default of `FLUSH_OFFSET_SECONDS`: how long after the boundary the bot wakes, in seconds. */
  const DefaultFlushOffset: int := 2

  /** Slot and epoch length, in seconds, as read from the rollup contract. */
  datatype Tracker = Tracker(slotDuration: nat, epochDuration: nat)

  function Min(a: int, b: int): int { if a <= b then a else b }

  /** `Math.floor(Date.now() / 1000)`: the whole seconds of a millisecond reading. */
  function NowSeconds(nowMs: nat): (s: nat)
    ensures s * 1000 <= nowMs < s * 1000 + 1000
  {
    nowMs / 1000
  }

  /** `getCurrentEpoch`: the index of the epoch the current second lies in. */
  function CurrentEpoch(nowMs: nat, epochDuration: nat): (e: nat)
    requires epochDuration > 0
    ensures e * epochDuration <= NowSeconds(nowMs) < e * epochDuration + epochDuration
  {
    NowSeconds(nowMs) / epochDuration
  }

  /** `getSecondsUntilNextEpoch`: seconds from now to the start of the next epoch. */
  function SecondsUntilNextEpoch(nowMs: nat, epochDuration: nat): (r: nat)
    requires epochDuration > 0
    ensures 1 <= r <= epochDuration
    ensures NowSeconds(nowMs) + r == (CurrentEpoch(nowMs, epochDuration) + 1) * epochDuration
  {
    var now := NowSeconds(nowMs);
    var currentEpochStart := (now / epochDuration) * epochDuration;
    var nextEpochStart := currentEpochStart + epochDuration;
    nextEpochStart - now
  }

  /** The epoch index advances by exactly one at the boundary the countdown aims for. */
  lemma {:induction false} NextBoundaryStartsNextEpoch(nowMs: nat, epochDuration: nat)
    requires epochDuration > 0
    ensures var later := nowMs + 1000 * SecondsUntilNextEpoch(nowMs, epochDuration);
            CurrentEpoch(later, epochDuration) == CurrentEpoch(nowMs, epochDuration) + 1
            && SecondsUntilNextEpoch(later, epochDuration) == epochDuration
  {
    var e := CurrentEpoch(nowMs, epochDuration);
    var r := SecondsUntilNextEpoch(nowMs, epochDuration);
    var later := nowMs + 1000 * r;
    var s := NowSeconds(nowMs) + r;
    FloorUnique(later, 1000, s);
    assert NowSeconds(later) == (e + 1) * epochDuration;
    FloorUnique(NowSeconds(later), epochDuration, e + 1);
    assert (e + 1) * epochDuration + epochDuration == (e + 2) * epochDuration;
  }

  /** Epoch indices never go backwards as the clock advances. */
  lemma EpochMonotone(t0: nat, t1: nat, epochDuration: nat)
    requires epochDuration > 0 && t0 <= t1
    ensures CurrentEpoch(t0, epochDuration) <= CurrentEpoch(t1, epochDuration)
  {
    var e0, e1 := CurrentEpoch(t0, epochDuration), CurrentEpoch(t1, epochDuration);
    if e0 > e1 {
      MulMonotone(e1 + 1, e0, epochDuration);
    }
  }

  /**
   * The sleeps of the countdown loop, in seconds, for `remaining` seconds of
   * waiting: as many full minutes as fit, then the rest. None when nothing
   * is left to wait.
   */
  function Chunks(remaining: int): seq<nat>
    decreases remaining
  {
    if remaining <= 0 then []
    else
      var w := Min(MaxSleepChunk, remaining);
      [w] + Chunks(remaining - w)
  }

  /**
   * Every sleep lasts more than nothing and at most a minute, every sleep but
   * the last a full minute; there are `ceil(remaining / 60)` of them and they
   * add up to the whole wait.
   */
  lemma {:induction false} ChunksShape(remaining: int)
    ensures forall i :: 0 <= i < |Chunks(remaining)| ==> 0 < Chunks(remaining)[i] <= MaxSleepChunk
    ensures Sum(Chunks(remaining)) == if remaining > 0 then remaining else 0
    ensures |Chunks(remaining)| == if remaining > 0 then (remaining + 59) / 60 else 0
    ensures forall i :: 0 <= i < |Chunks(remaining)| - 1 ==> Chunks(remaining)[i] == MaxSleepChunk
    decreases remaining
  {
    if remaining > 0 {
      var w := Min(MaxSleepChunk, remaining);
      ChunksShape(remaining - w);
      if remaining > MaxSleepChunk {
        assert (remaining + 59) / 60 == (remaining - 60 + 59) / 60 + 1;
      }
    }
  }

  /**
   * The seconds still to wait after each sleep, for the sleeps after which
   * time remains: these are the countdown lines the loop reports.
   */
  function Countdown(remaining: int): seq<nat>
    decreases remaining
  {
    if remaining <= 0 then []
    else
      var next := remaining - Min(MaxSleepChunk, remaining);
      (if next > 0 then [next as nat] else []) + Countdown(next)
  }

  /**
   * One countdown line per sleep except the last; the i-th shows the wait
   * less i + 1 full minutes, and is positive.
   */
  lemma {:induction false} CountdownShape(remaining: int)
    ensures |Countdown(remaining)| == if remaining > 0 then |Chunks(remaining)| - 1 else 0
    ensures forall i :: 0 <= i < |Countdown(remaining)| ==>
              0 < Countdown(remaining)[i] == remaining - MaxSleepChunk * (i + 1)
    decreases remaining
  {
    if remaining > 0 {
      var next := remaining - Min(MaxSleepChunk, remaining);
      CountdownShape(next);
      if next > 0 {
        var c := Countdown(remaining);
        assert c == [next as nat] + Countdown(next);
        forall i | 0 <= i < |c|
          ensures 0 < c[i] == remaining - MaxSleepChunk * (i + 1)
        {
          if i > 0 {
            assert c[i] == Countdown(next)[i - 1];
          }
        }
      }
    }
  }

  /** The countdown line `${Math.floor(r / 60)}m ${r % 60}s` splits the seconds left into minutes and seconds. */
  function CountdownLabel(remaining: nat): (ms: (nat, nat))
    ensures ms.0 * 60 + ms.1 == remaining && ms.1 < 60
  {
    (remaining / 60, remaining % 60)
  }

  /**
   * The countdown loop of `waitForNextEpoch`: sleeps `secondsToWait` seconds
   * in chunks of at most a minute and reports the seconds left after every
   * chunk that does not end the wait.
   */
  method SleepInChunks(secondsToWait: int) returns (sleeps: seq<nat>, countdown: seq<nat>)
    ensures sleeps == Chunks(secondsToWait) && countdown == Countdown(secondsToWait)
  {
    var remaining := secondsToWait;
    sleeps, countdown := [], [];
    while remaining > 0
      invariant sleeps + Chunks(remaining) == Chunks(secondsToWait)
      invariant countdown + Countdown(remaining) == Countdown(secondsToWait)
      decreases remaining
    {
      var waitTime := Min(MaxSleepChunk, remaining);
      assert Chunks(remaining) == [waitTime] + Chunks(remaining - waitTime);
      assert sleeps + Chunks(remaining) == (sleeps + [waitTime]) + Chunks(remaining - waitTime);
      ghost var before := remaining;
      sleeps := sleeps + [waitTime];
      remaining := remaining - waitTime;
      ghost var line: seq<nat> := if remaining > 0 then [remaining] else [];
      assert Countdown(before) == line + Countdown(remaining);
      assert countdown + Countdown(before) == (countdown + line) + Countdown(remaining);
      if remaining > 0 {
        countdown := countdown + [remaining];
      }
    }
    assert sleeps + [] == sleeps && countdown + [] == countdown;
  }

  /** Each countdown line shows the wait less the sleeps taken so far. */
  lemma CountdownAfterEachSleep(total: int)
    ensures |Countdown(total)| == if total > 0 then |Chunks(total)| - 1 else 0
    ensures forall i :: 0 <= i < |Countdown(total)| ==>
              0 < Countdown(total)[i] == total - Sum(Chunks(total)[..i + 1])
  {
    CountdownShape(total);
    ChunksShape(total);
    var c, s := Countdown(total), Chunks(total);
    forall i | 0 <= i < |c|
      ensures c[i] == total - Sum(s[..i + 1])
    {
      FullMinutesSum(s, i + 1);
    }
  }

  lemma {:induction false} FullMinutesSum(s: seq<nat>, k: nat)
    requires k <= |s|
    requires forall i :: 0 <= i < k ==> s[i] == MaxSleepChunk
    ensures Sum(s[..k]) == MaxSleepChunk * k
  {
    if k > 0 {
      assert s[..k][1..] == s[1..][..k - 1];
      FullMinutesSum(s[1..], k - 1);
    }
  }

  /**
   * `waitForNextEpoch`: waits the seconds to the next boundary plus the flush
   * offset, so that it wakes `flushOffset` seconds into the next epoch and
   * never earlier. Returns the sleeps (seconds) and the countdown values.
   */
  method WaitForNextEpoch(nowMs: nat, epochDuration: nat, flushOffset: int)
    returns (sleeps: seq<nat>, countdown: seq<nat>)
    requires epochDuration > 0
    ensures var total := SecondsUntilNextEpoch(nowMs, epochDuration) + flushOffset;
            sleeps == Chunks(total) && countdown == Countdown(total)
    ensures var total := SecondsUntilNextEpoch(nowMs, epochDuration) + flushOffset;
            if total > 0 then
              NowSeconds(nowMs) + Sum(sleeps)
                == (CurrentEpoch(nowMs, epochDuration) + 1) * epochDuration + flushOffset
            else sleeps == []
  {
    var secondsToWait := SecondsUntilNextEpoch(nowMs, epochDuration) + flushOffset;
    sleeps, countdown := SleepInChunks(secondsToWait);
    WakeAtBoundary(nowMs, epochDuration, flushOffset);
  }

  /** The countdown's sleeps add up to the wait until the next boundary plus the offset. */
  lemma WakeAtBoundary(nowMs: nat, epochDuration: nat, flushOffset: int)
    requires epochDuration > 0
    ensures var total := SecondsUntilNextEpoch(nowMs, epochDuration) + flushOffset;
            if total > 0 then
              NowSeconds(nowMs) + Sum(Chunks(total))
                == (CurrentEpoch(nowMs, epochDuration) + 1) * epochDuration + flushOffset
            else Chunks(total) == []
  {
    ChunksShape(SecondsUntilNextEpoch(nowMs, epochDuration) + flushOffset);
  }

  /**
   * `initialize`: reads the slot duration, then the epoch duration, and
   * returns the tracker with the current epoch; the first failed read is
   * rethrown.
   */
  function Initialize(slotRead: Call<nat>, epochRead: Call<nat>, nowMs: nat): (r: Result<(Tracker, nat), string>)
    requires epochRead.Returned? ==> epochRead.value > 0
    ensures r.Ok? <==> slotRead.Returned? && epochRead.Returned?
    ensures slotRead.Threw? ==> r == Err(slotRead.message)
    ensures slotRead.Returned? && epochRead.Threw? ==> r == Err(epochRead.message)
    ensures r.Ok? ==> (r.value.0 == Tracker(slotRead.value, epochRead.value)
                   && r.value.1 * epochRead.value <= NowSeconds(nowMs) < (r.value.1 + 1) * epochRead.value)
  {
    match slotRead
    case Threw(m) => Err(m)
    case Returned(slot) =>
      match epochRead
      case Threw(m) => Err(m)
      case Returned(epoch) => Ok((Tracker(slot, epoch), CurrentEpoch(nowMs, epoch)))
  }
}
