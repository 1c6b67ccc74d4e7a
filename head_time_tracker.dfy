/**
 * The "time between head changes" tracker both feed sections keep beside
 * their buffers: whenever the buffer's newest entry has a hash not seen last
 * time, the time since the previous such change (if plausible) becomes the
 * displayed block time, and the arrival time is remembered.
 */
module HeadTimeTracker {
  import opened Common

  /**
   * The `lastBlockHashRef` ref: `null` before the first head, afterwards the
   * head's hash, which may itself be `undefined` (`None`).
   */
  datatype HashRef = NullRef | Held(hash: Option<string>)

  /** `blockTimeMs`, `lastBlockHashRef` and `lastBlockTimeRef` (`None` for `null`). */
  datatype TrackerState = TrackerState(blockTimeMs: int, lastHash: HashRef, lastTime: Option<int>)

  /** The tracker before any head arrived. */
  function InitialTracker(defaultTimeMs: int): (s: TrackerState)
    ensures s.blockTimeMs == defaultTimeMs && s.lastHash == NullRef && s.lastTime.None?
  {
    TrackerState(defaultTimeMs, NullRef, None)
  }

  /** `blocks.length === 0`: the section shows its loading message. */
  predicate IsLoading<T>(blocks: seq<T>) {
    |blocks| == 0
  }

  /**
   * One run of the effect at time `now`: nothing for an empty buffer or an
   * unchanged head; otherwise the gap since a truthy previous arrival
   * replaces the block time when `0 < gap < maxGapMs`, and the head and the
   * arrival time are recorded.
   */
  function Observe(s: TrackerState, latest: Option<Option<string>>, now: int, maxGapMs: int): TrackerState {
    if latest.None? then s
    else if s.lastHash == Held(latest.value) then s
    else
      var blockTimeMs :=
        if NonZero(s.lastTime) && 0 < now - s.lastTime.value < maxGapMs then now - s.lastTime.value
        else s.blockTimeMs;
      TrackerState(blockTimeMs, Held(latest.value), Some(now))
  }

  /** An empty buffer, or a head equal to the last one processed, changes nothing. */
  lemma EmptyOrSameHeadIgnored(s: TrackerState, latest: Option<Option<string>>, now: int, maxGapMs: int)
    requires latest.None? || s.lastHash == Held(latest.value)
    ensures Observe(s, latest, now, maxGapMs) == s
  {
  }

  /**
   * A new head is remembered with its arrival time, and the block time
   * changes exactly when a truthy previous arrival lies a plausible gap back.
   */
  lemma NewHeadRecorded(s: TrackerState, h: Option<string>, now: int, maxGapMs: int)
    requires s.lastHash != Held(h)
    ensures Observe(s, Some(h), now, maxGapMs).lastHash == Held(h)
    ensures Observe(s, Some(h), now, maxGapMs).lastTime == Some(now)
    ensures Observe(s, Some(h), now, maxGapMs).blockTimeMs != s.blockTimeMs ==>
      NonZero(s.lastTime) && Observe(s, Some(h), now, maxGapMs).blockTimeMs == now - s.lastTime.value
    ensures NonZero(s.lastTime) && 0 < now - s.lastTime.value < maxGapMs ==>
      Observe(s, Some(h), now, maxGapMs).blockTimeMs == now - s.lastTime.value
    ensures !(NonZero(s.lastTime) && 0 < now - s.lastTime.value < maxGapMs) ==>
      Observe(s, Some(h), now, maxGapMs).blockTimeMs == s.blockTimeMs
  {
  }

  /** The first head only starts the clock: the block time stays the default. */
  lemma FirstHeadKeepsTime(defaultTimeMs: int, latest: Option<Option<string>>, now: int, maxGapMs: int)
    ensures Observe(InitialTracker(defaultTimeMs), latest, now, maxGapMs).blockTimeMs == defaultTimeMs
    ensures latest.Some? ==> Observe(InitialTracker(defaultTimeMs), latest, now, maxGapMs).lastTime == Some(now)
  {
  }

  /** The effect run once per buffer change: the head seen and the time it ran. */
  datatype Change = Change(latest: Option<Option<string>>, now: int)

  function Run(s: TrackerState, changes: seq<Change>, maxGapMs: int): TrackerState
    decreases |changes|
  {
    if changes == [] then s
    else Run(Observe(s, changes[0].latest, changes[0].now, maxGapMs), changes[1..], maxGapMs)
  }

  /** A plausible block time: strictly between 0 and the largest accepted gap. */
  predicate Plausible(t: int, maxGapMs: int) {
    0 < t < maxGapMs
  }

  /**
   * Starting from a plausible default, the displayed block time stays
   * plausible whatever heads arrive and whenever.
   */
  lemma {:induction false} RunStaysPlausible(s: TrackerState, changes: seq<Change>, maxGapMs: int)
    requires Plausible(s.blockTimeMs, maxGapMs)
    ensures Plausible(Run(s, changes, maxGapMs).blockTimeMs, maxGapMs)
    decreases |changes|
  {
    if changes != [] {
      RunStaysPlausible(Observe(s, changes[0].latest, changes[0].now, maxGapMs), changes[1..], maxGapMs);
    }
  }

  /**
   * After any run the block time is the starting one or one of the gaps
   * between two recorded arrivals: never a value from nowhere.
   */
  lemma {:induction false} RunTimeIsAGap(s: TrackerState, changes: seq<Change>, maxGapMs: int)
    ensures var t := Run(s, changes, maxGapMs).blockTimeMs;
      t == s.blockTimeMs || exists a, b :: ArrivalGap(s, changes, a, b) && t == b - a
    decreases |changes|
  {
    if changes != [] {
      var s' := Observe(s, changes[0].latest, changes[0].now, maxGapMs);
      RunTimeIsAGap(s', changes[1..], maxGapMs);
      var t := Run(s, changes, maxGapMs).blockTimeMs;
      if t != s.blockTimeMs {
        if t == s'.blockTimeMs {
          assert ArrivalGap(s, changes, s.lastTime.value, changes[0].now);
        } else {
          var a, b :| ArrivalGap(s', changes[1..], a, b) && t == b - a;
          ArrivalGapShift(s, changes, maxGapMs, a, b);
        }
      }
    }
  }

  /**
   * `b - a` is a gap the trace could have measured: `a` is the stored arrival
   * time or a change's time, and `b` a later change's time.
   */
  predicate ArrivalGap(s: TrackerState, changes: seq<Change>, a: int, b: int) {
    (s.lastTime == Some(a) && exists j :: 0 <= j < |changes| && changes[j].now == b)
    || exists i, j :: 0 <= i < j < |changes| && changes[i].now == a && changes[j].now == b
  }

  lemma ArrivalGapShift(s: TrackerState, changes: seq<Change>, maxGapMs: int, a: int, b: int)
    requires changes != []
    requires ArrivalGap(Observe(s, changes[0].latest, changes[0].now, maxGapMs), changes[1..], a, b)
    ensures ArrivalGap(s, changes, a, b)
  {
    var s' := Observe(s, changes[0].latest, changes[0].now, maxGapMs);
    var rest := changes[1..];
    if s'.lastTime == Some(a) && exists j :: 0 <= j < |rest| && rest[j].now == b {
      var j :| 0 <= j < |rest| && rest[j].now == b;
      assert changes[j + 1].now == b;
      if s'.lastTime != s.lastTime {
        assert changes[0].now == a;
      }
    } else {
      var i, j :| 0 <= i < j < |rest| && rest[i].now == a && rest[j].now == b;
      assert changes[i + 1].now == a && changes[j + 1].now == b;
    }
  }

  /** The tracker's refs and state, updated in place by each run of the effect. */
  class Tracker {
    const maxGapMs: int
    var blockTimeMs: int
    var lastHash: HashRef
    var lastTime: Option<int>

    function State(): TrackerState
      reads this
    {
      TrackerState(blockTimeMs, lastHash, lastTime)
    }

    constructor (defaultTimeMs: int, maxGapMs: int)
      ensures this.maxGapMs == maxGapMs && State() == InitialTracker(defaultTimeMs)
    {
      this.maxGapMs := maxGapMs;
      blockTimeMs := defaultTimeMs;
      lastHash := NullRef;
      lastTime := None;
    }

    /** The effect body, run when the buffer changed, at time `now`. */
    method OnBlocksChanged(latest: Option<Option<string>>, now: int)
      modifies this
      ensures State() == Observe(old(State()), latest, now, maxGapMs)
    {
      if latest.None? {
        return;
      }
      var latestBlockHash := latest.value;
      if lastHash == Held(latestBlockHash) {
        return;
      }
      lastHash := Held(latestBlockHash);
      if NonZero(lastTime) {
        var timeDiff := now - lastTime.value;
        if timeDiff > 0 && timeDiff < maxGapMs {
          blockTimeMs := timeDiff;
        }
      }
      lastTime := Some(now);
    }
  }
}
