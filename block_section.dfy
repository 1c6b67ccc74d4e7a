/**
 * The regular-blocks section: the header-to-block conversion each list item
 * renders from, and the block-time tracker over the block feed's buffer.
 */
module BlockSection {
  import opened Common
  import opened Numerals
  import opened WebSocketTypes
  import opened HeadTimeTracker
  import BlocksQuery

  /** The block time shown before two heads have been seen: 2 s. */
  const BlockTimeMs: int := 2000

  /** Gaps of 30 s or more between heads are not taken as block times. */
  const MaxBlockGapMs: int := 30000

  /** The block object a list item renders; `gasUsed` and the rest are `bigint`s. */
  datatype Block = Block(
    hash: Option<string>,
    number: int,
    timestamp: int,
    transactions: seq<string>,
    gasUsed: int,
    gasLimit: int,
    needToFetchTransactions: bool)

  /**
   * `field ? BigInt(parseInt(field, 16)) : BigInt(fallback)`. `None` is the
   * `RangeError` that `BigInt(NaN)` throws when the text holds no hex digit.
   */
  function DecodeOr(field: Option<string>, fallback: int): (r: Option<int>)
    ensures !Present(field) ==> r == Some(fallback)
    ensures Present(field) ==> r == ParseIntHex(field.value)
  {
    if Present(field) then ParseIntHex(field.value) else Some(fallback)
  }

  /** A field that converts without throwing: absent, empty, or with a hex digit to read. */
  predicate Decodes(field: Option<string>) {
    !Present(field) || ParseIntHex(field.value).Some?
  }

  /**
   * `!transactions || (typeof transactions === 'boolean' && transactions === true)`:
   * a list of hashes is truthy, so only it makes a fetch unnecessary; a bare
   * `false` is falsy and asks for a fetch just as `true` does.
   */
  function NeedToFetch(t: TxField): (need: bool)
    ensures need <==> !t.Hashes?
  {
    t.Absent? || (t.Flag? && !t.flag) || (t.Flag? && t.flag)
  }

  /**
   * `createBlockObject`: `None` when one of the four hex fields throws;
   * otherwise the hash passes through, missing amounts default (gas used,
   * number and timestamp to 0, gas limit to 1) and no transactions are listed.
   */
  function CreateBlockObject(h: BlockHeader): (r: Option<Block>)
    ensures r.Some? <==> Decodes(h.gasUsed) && Decodes(h.gasLimit) && Decodes(h.number) && Decodes(h.timestamp)
    ensures r.Some? ==> r.value.hash == h.hash && r.value.transactions == []
    ensures r.Some? ==> (r.value.needToFetchTransactions <==> !h.transactions.Hashes?)
    ensures r.Some? && !Present(h.gasUsed) ==> r.value.gasUsed == 0
    ensures r.Some? && !Present(h.gasLimit) ==> r.value.gasLimit == 1
    ensures r.Some? && !Present(h.number) ==> r.value.number == 0
    ensures r.Some? && !Present(h.timestamp) ==> r.value.timestamp == 0
    ensures r.Some? && Present(h.gasUsed) ==> Some(r.value.gasUsed) == ParseIntHex(h.gasUsed.value)
    ensures r.Some? && Present(h.gasLimit) ==> Some(r.value.gasLimit) == ParseIntHex(h.gasLimit.value)
    ensures r.Some? && Present(h.number) ==> Some(r.value.number) == ParseIntHex(h.number.value)
    ensures r.Some? && Present(h.timestamp) ==> Some(r.value.timestamp) == ParseIntHex(h.timestamp.value)
  {
    var gasUsed := DecodeOr(h.gasUsed, 0);
    var gasLimit := DecodeOr(h.gasLimit, 1);
    var number := DecodeOr(h.number, 0);
    var timestamp := DecodeOr(h.timestamp, 0);
    if gasUsed.None? || gasLimit.None? || number.None? || timestamp.None? then None
    else Some(Block(h.hash, number.value, timestamp.value, [], gasUsed.value, gasLimit.value, NeedToFetch(h.transactions)))
  }

  /** A field as a node sends it: missing, or `0x` followed by hex digits. */
  predicate HexField(field: Option<string>) {
    field.None? || (|field.value| > 2 && field.value[..2] == "0x" && AllHex(field.value[2..]))
  }

  /** The number a well-formed field stands for, or the fallback when it is missing. */
  function HexFieldValue(field: Option<string>, fallback: int): int
    requires HexField(field)
  {
    if field.None? then fallback else HexValue(field.value[2..])
  }

  /** A well-formed field decodes to the value of its digits. */
  lemma HexFieldDecodes(field: Option<string>, fallback: int)
    requires HexField(field)
    ensures DecodeOr(field, fallback) == Some(HexFieldValue(field, fallback))
  {
    if field.Some? {
      var d := field.value[2..];
      assert field.value == "0x" + d + "";
      ParseIntHexOfLiteral(d, "");
    }
  }

  /**
   * A header whose amounts are all well-formed hex (or missing) always
   * converts, to the values its digits spell.
   */
  lemma HexHeaderConverts(h: BlockHeader)
    requires HexField(h.gasUsed) && HexField(h.gasLimit) && HexField(h.number) && HexField(h.timestamp)
    ensures CreateBlockObject(h) == Some(Block(
      h.hash,
      HexFieldValue(h.number, 0),
      HexFieldValue(h.timestamp, 0),
      [],
      HexFieldValue(h.gasUsed, 0),
      HexFieldValue(h.gasLimit, 1),
      !h.transactions.Hashes?))
  {
    HexFieldDecodes(h.gasUsed, 0);
    HexFieldDecodes(h.gasLimit, 1);
    HexFieldDecodes(h.number, 0);
    HexFieldDecodes(h.timestamp, 0);
  }

  /** `blocks[0]?.hash` as the tracker sees it; `None` for an empty buffer. */
  function Latest(blocks: seq<BlockHeader>): (latest: Option<Option<string>>)
    ensures latest.None? <==> IsLoading(blocks)
    ensures blocks != [] ==> latest == Some(blocks[0].hash)
  {
    if blocks == [] then None else Some(blocks[0].hash)
  }

  /** Once a valid header has been processed the section stops showing its loading message. */
  lemma ValidHeaderEndsLoading(s: BlocksQuery.BlocksState, maxBlocks: nat, now: int, h: BlockHeader)
    requires BlocksQuery.ValidHeader(h) && 0 < maxBlocks
    ensures !IsLoading(BlocksQuery.ProcessNewBlock(s, maxBlocks, now, h).blocks)
  {
    if BlocksQuery.HashListed(s.blocks, h.hash) {
      var i :| 0 <= i < |s.blocks| && s.blocks[i].hash == h.hash;
      assert s.blocks != [];
    }
  }

  /**
   * A header not yet buffered becomes the tracker's new head: when the
   * tracker's last head is still in the buffer (or there was none), the next
   * run of the effect records the header's hash and the time it ran.
   */
  lemma NewHeaderRestartsClock(s: BlocksQuery.BlocksState, maxBlocks: nat, now: int, h: BlockHeader,
                               t: TrackerState, later: int)
    requires BlocksQuery.ValidHeader(h) && 0 < maxBlocks
    requires !BlocksQuery.HashListed(s.blocks, h.hash)
    requires t.lastHash.Held? ==> BlocksQuery.HashListed(s.blocks, t.lastHash.hash)
    ensures Latest(BlocksQuery.ProcessNewBlock(s, maxBlocks, now, h).blocks) == Some(h.hash)
    ensures Observe(t, Latest(BlocksQuery.ProcessNewBlock(s, maxBlocks, now, h).blocks), later, MaxBlockGapMs).lastHash == Held(h.hash)
    ensures Observe(t, Latest(BlocksQuery.ProcessNewBlock(s, maxBlocks, now, h).blocks), later, MaxBlockGapMs).lastTime == Some(later)
  {
    assert t.lastHash != Held(h.hash);
  }

  /** The section: the block feed it reads and the block-time tracker beside it. */
  class Section {
    const feed: BlocksQuery.BlocksFeed
    const tracker: Tracker

    /** A section over a fresh feed bounded by `maxBlocks`, showing the default block time. */
    constructor (maxBlocks: nat)
      ensures fresh(feed) && fresh(tracker)
      ensures feed.maxBlocks == maxBlocks && feed.State() == BlocksQuery.InitialBlocks() && feed.Valid()
      ensures tracker.maxGapMs == MaxBlockGapMs && tracker.State() == InitialTracker(BlockTimeMs)
    {
      feed := new BlocksQuery.BlocksFeed(maxBlocks);
      tracker := new Tracker(BlockTimeMs, MaxBlockGapMs);
    }

    /** The tracking effect, run at time `now` after the feed's buffer changed. */
    method OnBlocksChanged(now: int)
      modifies tracker
      ensures tracker.State() == Observe(old(tracker.State()), Latest(feed.blocks), now, tracker.maxGapMs)
    {
      tracker.OnBlocksChanged(Latest(feed.blocks), now);
    }
  }
}
