/**
 * The flashblocks section: the flashblock-time tracker over the flashblock
 * feed's buffer, and the clearing of that feed when the section goes away.
 */
module FlashblocksSection {
  import opened Common
  import opened FlashblocksTypes
  import opened HeadTimeTracker
  import opened FlashblocksQuery
  import TransactionCounts

  /** The flashblock time shown before two heads have been seen: 200 ms. */
  const FlashblockTimeMs: int := 200

  /** Gaps of 10 s or more between heads are not taken as flashblock times. */
  const MaxFlashblockGapMs: int := 10000

  /** `blocks[0]?.diff?.block_hash` as the tracker sees it; `None` for an empty buffer. */
  function Latest(blocks: seq<Payload>): (latest: Option<Option<string>>)
    ensures latest.None? <==> IsLoading(blocks)
    ensures blocks != [] ==> latest == Some(BlockHashOf(blocks[0]))
  {
    if blocks == [] then None else Some(BlockHashOf(blocks[0]))
  }

  /**
   * A first-seen payload heads the buffer, so the section stops loading and
   * the tracker's next look sees that payload's hash.
   */
  lemma FreshPayloadHeads(s: FeedState, maxBlocks: nat, f: Frame)
    requires Inv(s, maxBlocks) && Fresh(s.processed, f) && 0 < maxBlocks
    ensures !IsLoading(Received(s, maxBlocks, f).blocks)
    ensures Latest(Received(s, maxBlocks, f).blocks) == Some(BlockHashOf(f.payload))
  {
    FreshPayloadIsHead(s, maxBlocks, f);
  }

  lemma FreshPayloadIsHead(s: FeedState, maxBlocks: nat, f: Frame)
    requires Inv(s, maxBlocks) && Fresh(s.processed, f) && 0 < maxBlocks
    ensures Received(s, maxBlocks, f).blocks != [] && Received(s, maxBlocks, f).blocks[0] == f.payload
  {
    FreshNotListed(s, maxBlocks, f.payload);
  }

  /**
   * The tracker looks at the hash alone: a new flashblock (new index) that
   * repeats the hash of the head it replaces changes neither the time nor the
   * remembered arrival.
   */
  lemma SameHashFlashblockIgnored(s: FeedState, maxBlocks: nat, f: Frame, t: TrackerState, now: int)
    requires Inv(s, maxBlocks) && Fresh(s.processed, f) && 0 < maxBlocks
    requires t.lastHash == Held(BlockHashOf(f.payload))
    ensures Observe(t, Latest(Received(s, maxBlocks, f).blocks), now, MaxFlashblockGapMs) == t
  {
    FreshPayloadIsHead(s, maxBlocks, f);
  }

  /**
   * A first-seen payload with a hash the tracker does not hold restarts the
   * clock at `now`, and the time shown becomes the gap when it is plausible.
   */
  lemma NewHashFlashblockRestartsClock(s: FeedState, maxBlocks: nat, f: Frame, t: TrackerState, now: int)
    requires Inv(s, maxBlocks) && Fresh(s.processed, f) && 0 < maxBlocks
    requires t.lastHash != Held(BlockHashOf(f.payload))
    ensures Observe(t, Latest(Received(s, maxBlocks, f).blocks), now, MaxFlashblockGapMs).lastHash == Held(BlockHashOf(f.payload))
    ensures Observe(t, Latest(Received(s, maxBlocks, f).blocks), now, MaxFlashblockGapMs).lastTime == Some(now)
    ensures NonZero(t.lastTime) && 0 < now - t.lastTime.value < MaxFlashblockGapMs ==>
      Observe(t, Latest(Received(s, maxBlocks, f).blocks), now, MaxFlashblockGapMs).blockTimeMs == now - t.lastTime.value
  {
    FreshPayloadIsHead(s, maxBlocks, f);
  }

  /** After unmounting, a section over the same feed would show its loading message; counts survive. */
  lemma UnmountShowsLoading(s: FeedState)
    ensures IsLoading(Cleared(s).blocks) && Latest(Cleared(s).blocks).None?
    ensures Cleared(s).counts == s.counts
  {
  }

  /** The section: the flashblock feed it reads and the flashblock-time tracker beside it. */
  class Section {
    const feed: FlashblocksFeed
    const tracker: Tracker

    ghost predicate Valid()
      reads this, feed, feed.store
    {
      feed.Valid()
    }

    /** A section over a fresh feed that shares `store`, showing the default flashblock time. */
    constructor (store: TransactionCounts.Store)
      ensures fresh(feed) && fresh(tracker) && feed.store == store
      ensures feed.State() == InitialFeed(store.counts) && Valid()
      ensures tracker.maxGapMs == MaxFlashblockGapMs && tracker.State() == InitialTracker(FlashblockTimeMs)
    {
      feed := new FlashblocksFeed(store);
      tracker := new Tracker(FlashblockTimeMs, MaxFlashblockGapMs);
    }

    /** The tracking effect, run at time `now` after the feed's buffer changed. */
    method OnBlocksChanged(now: int)
      modifies tracker
      ensures tracker.State() == Observe(old(tracker.State()), Latest(feed.blocks), now, tracker.maxGapMs)
    {
      tracker.OnBlocksChanged(Latest(feed.blocks), now);
    }

    /** The unmount cleanup: the feed's buffer and seen-set are cleared; the tracker is left alone. */
    method Unmount()
      requires Valid()
      modifies feed
      ensures Valid()
      ensures feed.State() == Cleared(old(feed.State()))
    {
      feed.ClearBlocks();
    }
  }
}
