/**
 * The flashblock feed: every parsed payload with a block hash is recorded
 * once under its `${block_number}-${index}-${block_hash}` key, counted into
 * the transaction-count store under its block number, and put at the head of
 * a list that keeps at most `maxBlocks` entries.
 */
module FlashblocksQuery {
  import opened Common
  import opened Numerals
  import opened FlashblocksTypes
  import TransactionCounts
  import AppConstants

  /** `data.diff?.block_hash` */
  function BlockHashOf(p: Payload): Option<string> {
    if p.diff.Some? then p.diff.value.blockHash else None
  }

  /** `data.metadata?.block_number` */
  function BlockNumberOf(p: Payload): Option<int> {
    if p.metadata.Some? then p.metadata.value.blockNumber else None
  }

  /** A payload is kept only when its block hash is truthy (present and not empty). */
  predicate HasBlockHash(p: Payload) {
    Present(BlockHashOf(p))
  }

  /** The three fields the list compares with `===` before inserting. */
  datatype Identity = Identity(blockNumber: Option<int>, index: int, blockHash: Option<string>)

  function IdentityOf(p: Payload): Identity {
    Identity(BlockNumberOf(p), p.index, BlockHashOf(p))
  }

  /** A template-literal rendering of an optional number: `undefined` when absent. */
  function NumberText(n: Option<int>): string {
    if n.None? then "undefined" else IntToString(n.value)
  }

  /** The seen-set key of a payload. */
  function BlockIdentifier(p: Payload): string
    requires HasBlockHash(p)
  {
    NumberText(BlockNumberOf(p)) + "-" + IntToString(p.index) + "-" + BlockHashOf(p).value
  }

  /** An absent number renders as a word, a present one as a numeral: the first character tells them apart. */
  lemma NumberTextHead(n: Option<int>)
    ensures |NumberText(n)| > 0
    ensures NumberText(n)[0] == 'u' <==> n.None?
  {
    if n.Some? {
      var t := IntToString(n.value);
      assert t[0] == '-' || InBase(t[0], 10);
    }
  }

  /** `undefined-x` and `<numeral>-y` can only be equal when both sides are the same kind and `x == y`. */
  lemma NumberTextSplit(a: Option<int>, b: Option<int>, x: string, y: string)
    requires NumberText(a) + "-" + x == NumberText(b) + "-" + y
    ensures a == b && x == y
  {
    var l, r := NumberText(a) + "-" + x, NumberText(b) + "-" + y;
    NumberTextHead(a);
    NumberTextHead(b);
    assert l[0] == NumberText(a)[0] && r[0] == NumberText(b)[0];
    if a.None? {
      assert x == l[10..] && y == r[10..];
    } else {
      NumeralDashSplit(a.value, b.value, x, y);
    }
  }

  /**
   * The seen-set key is a faithful name for the identity the list compares:
   * two payloads with hashes share a key exactly when they agree on block
   * number, index and block hash.
   */
  lemma BlockIdentifierInjective(p: Payload, q: Payload)
    requires HasBlockHash(p) && HasBlockHash(q)
    ensures BlockIdentifier(p) == BlockIdentifier(q) <==> IdentityOf(p) == IdentityOf(q)
  {
    if BlockIdentifier(p) == BlockIdentifier(q) {
      var x := IntToString(p.index) + "-" + BlockHashOf(p).value;
      var y := IntToString(q.index) + "-" + BlockHashOf(q).value;
      assert BlockIdentifier(p) == NumberText(BlockNumberOf(p)) + "-" + x;
      assert BlockIdentifier(q) == NumberText(BlockNumberOf(q)) + "-" + y;
      NumberTextSplit(BlockNumberOf(p), BlockNumberOf(q), x, y);
      NumeralDashSplit(p.index, q.index, BlockHashOf(p).value, BlockHashOf(q).value);
    }
  }

  /** `data.diff.transactions?.length || 0` */
  function TxCount(p: Payload): nat {
    if p.diff.Some? && p.diff.value.transactions.Some? then |p.diff.value.transactions.value| else 0
  }

  /** The block number whose count grows: only a truthy `metadata.block_number` is forwarded. */
  function ForwardedBlock(p: Payload): (n: Option<int>)
    ensures n.Some? <==> NonZero(BlockNumberOf(p))
    ensures n.Some? ==> n == BlockNumberOf(p)
  {
    if NonZero(BlockNumberOf(p)) then BlockNumberOf(p) else None
  }

  /** The counts after one forwarded payload. */
  function CountsAfter(counts: map<int, int>, p: Payload): map<int, int> {
    match ForwardedBlock(p)
    case None => counts
    case Some(n) => TransactionCounts.Added(counts, n, TxCount(p))
  }

  /** `prevBlocks.findIndex(...)`: the first position holding the same identity, or -1. */
  function FindIndex(blocks: seq<Payload>, p: Payload): (i: int)
    ensures -1 <= i < |blocks|
    ensures i == -1 <==> forall j :: 0 <= j < |blocks| ==> IdentityOf(blocks[j]) != IdentityOf(p)
    ensures 0 <= i ==> IdentityOf(blocks[i]) == IdentityOf(p)
    ensures 0 <= i ==> forall j :: 0 <= j < i ==> IdentityOf(blocks[j]) != IdentityOf(p)
  {
    if blocks == [] then -1
    else if IdentityOf(blocks[0]) == IdentityOf(p) then 0
    else
      var k := FindIndex(blocks[1..], p);
      if k == -1 then -1 else k + 1
  }

  /**
   * The `setBlocks` updater: a payload whose identity is already listed leaves
   * the list as it was; otherwise it goes first and the list is cut to
   * `maxBlocks`.
   */
  function InsertPayload(blocks: seq<Payload>, p: Payload, maxBlocks: nat): (r: seq<Payload>)
    ensures FindIndex(blocks, p) != -1 ==> r == blocks
    ensures FindIndex(blocks, p) == -1 ==> r == Take([p] + blocks, maxBlocks)
    ensures FindIndex(blocks, p) == -1 ==> |r| == Min(|blocks| + 1, maxBlocks)
    ensures FindIndex(blocks, p) == -1 && 0 < maxBlocks ==> r[0] == p
    ensures FindIndex(blocks, p) == -1 ==> forall i :: 0 < i < |r| ==> r[i] == blocks[i - 1]
  {
    if FindIndex(blocks, p) != -1 then blocks
    else
      var newBlocks := [p] + blocks;
      if |newBlocks| > maxBlocks then newBlocks[..maxBlocks] else newBlocks
  }

  /** One message as the handler sees it: text that did not parse, or a payload. */
  datatype Frame = Unparsable | Parsed(payload: Payload)

  /** The feed's state: the list, the seen-set, and the shared transaction-count store. */
  datatype FeedState = FeedState(blocks: seq<Payload>, processed: set<string>, counts: map<int, int>)

  function InitialFeed(counts: map<int, int>): FeedState {
    FeedState([], {}, counts)
  }

  /** A frame that `handleMessage` acts on: parsed, with a hash, and not seen before. */
  predicate Fresh(processed: set<string>, f: Frame) {
    f.Parsed? && HasBlockHash(f.payload) && BlockIdentifier(f.payload) !in processed
  }

  /** `handleMessage`: parse failures and hash-less or already-seen payloads change nothing. */
  function Received(s: FeedState, maxBlocks: nat, f: Frame): FeedState {
    if !Fresh(s.processed, f) then s
    else
      var p := f.payload;
      FeedState(InsertPayload(s.blocks, p, maxBlocks), s.processed + {BlockIdentifier(p)}, CountsAfter(s.counts, p))
  }

  /**
   * A frame that fails to parse, a payload without a block hash and a payload
   * whose key was seen before leave the list, the seen-set and the counts alone.
   */
  lemma SkippedFramesIgnored(s: FeedState, maxBlocks: nat, f: Frame)
    requires f.Unparsable? || !HasBlockHash(f.payload) || BlockIdentifier(f.payload) in s.processed
    ensures Received(s, maxBlocks, f) == s
  {
  }

  /**
   * A first-seen payload: its key joins the seen-set and its transaction count
   * is added to its block number when that number is truthy, once.
   */
  lemma FreshFrameRecorded(s: FeedState, maxBlocks: nat, f: Frame)
    requires Fresh(s.processed, f)
    ensures Received(s, maxBlocks, f).processed == s.processed + {BlockIdentifier(f.payload)}
    ensures NonZero(BlockNumberOf(f.payload)) ==>
      Received(s, maxBlocks, f).counts == TransactionCounts.Added(s.counts, BlockNumberOf(f.payload).value, TxCount(f.payload))
    ensures !NonZero(BlockNumberOf(f.payload)) ==> Received(s, maxBlocks, f).counts == s.counts
  {
  }

  /** `clearBlocks`: the list and the seen-set are emptied; the counts are deliberately kept. */
  function Cleared(s: FeedState): (r: FeedState)
    ensures r.blocks == [] && r.processed == {} && r.counts == s.counts
  {
    FeedState([], {}, s.counts)
  }

  function Run(s: FeedState, maxBlocks: nat, fs: seq<Frame>): FeedState
    decreases |fs|
  {
    if fs == [] then s else Run(Received(s, maxBlocks, fs[0]), maxBlocks, fs[1..])
  }

  /**
   * What `handleMessage` maintains: the list is within bound, every listed
   * payload has a hash and is in the seen-set, and no identity is listed twice.
   */
  predicate Inv(s: FeedState, maxBlocks: nat) {
    && |s.blocks| <= maxBlocks
    && (forall i :: 0 <= i < |s.blocks| ==> HasBlockHash(s.blocks[i]))
    && (forall i :: 0 <= i < |s.blocks| ==> BlockIdentifier(s.blocks[i]) in s.processed)
    && (forall i, j :: 0 <= i < j < |s.blocks| ==> IdentityOf(s.blocks[i]) != IdentityOf(s.blocks[j]))
  }

  /**
   * A payload that passes the seen-set check is never already in the list,
   * so the "already exists" branch of the list update is unreachable.
   */
  lemma FreshNotListed(s: FeedState, maxBlocks: nat, p: Payload)
    requires Inv(s, maxBlocks)
    requires HasBlockHash(p) && BlockIdentifier(p) !in s.processed
    ensures FindIndex(s.blocks, p) == -1
  {
    forall j | 0 <= j < |s.blocks| ensures IdentityOf(s.blocks[j]) != IdentityOf(p) {
      BlockIdentifierInjective(s.blocks[j], p);
    }
  }

  lemma ReceivedKeepsInv(s: FeedState, maxBlocks: nat, f: Frame)
    requires Inv(s, maxBlocks)
    ensures Inv(Received(s, maxBlocks, f), maxBlocks)
  {
    if Fresh(s.processed, f) {
      var p := f.payload;
      FreshNotListed(s, maxBlocks, p);
      var r := Received(s, maxBlocks, f);
      assert r.blocks == Take([p] + s.blocks, maxBlocks);
      forall i, j | 0 <= i < j < |r.blocks| ensures IdentityOf(r.blocks[i]) != IdentityOf(r.blocks[j]) {
        if i > 0 {
          assert r.blocks[i] == s.blocks[i - 1] && r.blocks[j] == s.blocks[j - 1];
        }
      }
    }
  }

  lemma RunKeepsInv(s: FeedState, maxBlocks: nat, fs: seq<Frame>)
    requires Inv(s, maxBlocks)
    ensures Inv(Run(s, maxBlocks, fs), maxBlocks)
    decreases |fs|
  {
    if fs != [] {
      ReceivedKeepsInv(s, maxBlocks, fs[0]);
      RunKeepsInv(Received(s, maxBlocks, fs[0]), maxBlocks, fs[1..]);
    }
  }

  /** The seen-set is never pruned by messages, and every fed payload with a hash ends up in it. */
  lemma {:induction false} SeenPersists(s: FeedState, maxBlocks: nat, fs: seq<Frame>)
    ensures s.processed <= Run(s, maxBlocks, fs).processed
    ensures forall i :: 0 <= i < |fs| && fs[i].Parsed? && HasBlockHash(fs[i].payload) ==>
      BlockIdentifier(fs[i].payload) in Run(s, maxBlocks, fs).processed
    decreases |fs|
  {
    if fs != [] {
      var s' := Received(s, maxBlocks, fs[0]);
      SeenPersists(s', maxBlocks, fs[1..]);
      forall i | 0 < i < |fs| ensures fs[i] == fs[1..][i - 1] { }
    }
  }

  /** The payloads `handleMessage` acts on, in arrival order, starting from seen-set `processed`. */
  function Accepted(processed: set<string>, fs: seq<Frame>): (ps: seq<Payload>)
    ensures forall i :: 0 <= i < |ps| ==> HasBlockHash(ps[i])
    decreases |fs|
  {
    if fs == [] then []
    else if Fresh(processed, fs[0]) then
      [fs[0].payload] + Accepted(processed + {BlockIdentifier(fs[0].payload)}, fs[1..])
    else Accepted(processed, fs[1..])
  }

  /** The keys of the hashed payloads among `fs`. */
  function FedIdentifiers(fs: seq<Frame>): set<string>
    decreases |fs|
  {
    if fs == [] then {}
    else if fs[0].Parsed? && HasBlockHash(fs[0].payload) then {BlockIdentifier(fs[0].payload)} + FedIdentifiers(fs[1..])
    else FedIdentifiers(fs[1..])
  }

  function Identifiers(ps: seq<Payload>): set<string>
    requires forall i :: 0 <= i < |ps| ==> HasBlockHash(ps[i])
    decreases |ps|
  {
    if ps == [] then {} else {BlockIdentifier(ps[0])} + Identifiers(ps[1..])
  }

  /**
   * Exactly once: the accepted payloads carry pairwise distinct keys, none of
   * them seen before, and their keys are exactly the new keys among the frames.
   */
  lemma {:induction false} AcceptedExactlyOnce(processed: set<string>, fs: seq<Frame>)
    ensures var ps := Accepted(processed, fs);
      && (forall i, j :: 0 <= i < j < |ps| ==> BlockIdentifier(ps[i]) != BlockIdentifier(ps[j]))
      && (forall i :: 0 <= i < |ps| ==> BlockIdentifier(ps[i]) !in processed)
      && Identifiers(ps) == FedIdentifiers(fs) - processed
    decreases |fs|
  {
    if fs != [] {
      if Fresh(processed, fs[0]) {
        var id := BlockIdentifier(fs[0].payload);
        var rest := Accepted(processed + {id}, fs[1..]);
        AcceptedExactlyOnce(processed + {id}, fs[1..]);
        var ps := Accepted(processed, fs);
        assert ps == [fs[0].payload] + rest;
        assert ps[1..] == rest;
        IdentifiersMembers(rest);
        forall i | 0 < i < |ps| ensures BlockIdentifier(ps[i]) != id && BlockIdentifier(ps[i]) !in processed {
          assert ps[i] == rest[i - 1];
        }
      } else {
        AcceptedExactlyOnce(processed, fs[1..]);
      }
    }
  }

  lemma {:induction false} IdentifiersMembers(ps: seq<Payload>)
    requires forall i :: 0 <= i < |ps| ==> HasBlockHash(ps[i])
    ensures forall i :: 0 <= i < |ps| ==> BlockIdentifier(ps[i]) in Identifiers(ps)
    decreases |ps|
  {
    if ps != [] {
      IdentifiersMembers(ps[1..]);
      forall i | 0 < i < |ps| ensures BlockIdentifier(ps[i]) in Identifiers(ps) {
        assert ps[i] == ps[1..][i - 1];
      }
    }
  }

  /** The counts after forwarding every payload of `ps` in order. */
  function Forwarded(counts: map<int, int>, ps: seq<Payload>): map<int, int>
    decreases |ps|
  {
    if ps == [] then counts else Forwarded(CountsAfter(counts, ps[0]), ps[1..])
  }

  /** The transactions of the payloads in `ps` forwarded under block number `n`. */
  function TxFor(ps: seq<Payload>, n: int): int
    decreases |ps|
  {
    if ps == [] then 0
    else (if ForwardedBlock(ps[0]) == Some(n) then TxCount(ps[0]) else 0) + TxFor(ps[1..], n)
  }

  /** Forwarding adds, per block number, the transactions of exactly the payloads with that number. */
  lemma {:induction false} ForwardedCounts(counts: map<int, int>, ps: seq<Payload>, n: int)
    ensures TransactionCounts.CountOrZero(Forwarded(counts, ps), n) == TransactionCounts.CountOrZero(counts, n) + TxFor(ps, n)
    decreases |ps|
  {
    if ps != [] {
      ForwardedCounts(CountsAfter(counts, ps[0]), ps[1..], n);
    }
  }

  /** A run of frames adds to the seen-set exactly the keys of the accepted payloads. */
  lemma {:induction false} RunSeen(s: FeedState, maxBlocks: nat, fs: seq<Frame>)
    ensures Run(s, maxBlocks, fs).processed == s.processed + Identifiers(Accepted(s.processed, fs))
    decreases |fs|
  {
    if fs != [] {
      var s' := Received(s, maxBlocks, fs[0]);
      RunSeen(s', maxBlocks, fs[1..]);
      if Fresh(s.processed, fs[0]) {
        var rest := Accepted(s'.processed, fs[1..]);
        assert Accepted(s.processed, fs) == [fs[0].payload] + rest;
        assert ([fs[0].payload] + rest)[1..] == rest;
      }
    }
  }

  /** A run of frames leaves the counts with every accepted payload forwarded once, in order. */
  lemma {:induction false} RunCounts(s: FeedState, maxBlocks: nat, fs: seq<Frame>)
    ensures Run(s, maxBlocks, fs).counts == Forwarded(s.counts, Accepted(s.processed, fs))
    decreases |fs|
  {
    if fs != [] {
      var s' := Received(s, maxBlocks, fs[0]);
      RunCounts(s', maxBlocks, fs[1..]);
      if Fresh(s.processed, fs[0]) {
        var rest := Accepted(s'.processed, fs[1..]);
        assert Accepted(s.processed, fs) == [fs[0].payload] + rest;
        assert ([fs[0].payload] + rest)[1..] == rest;
      }
    }
  }

  /** Putting `p` in front and cutting, then the later payloads in front and cutting, is one cut. */
  lemma PrependNewest(rest: seq<Payload>, p: Payload, blocks: seq<Payload>, maxBlocks: nat)
    ensures Take(Reversed(rest) + Take([p] + blocks, maxBlocks), maxBlocks)
      == Take(Reversed([p] + rest) + blocks, maxBlocks)
  {
    assert ([p] + rest)[1..] == rest;
    assert Reversed([p] + rest) == Reversed(rest) + [p];
    TakeAbsorbs(Reversed(rest), [p] + blocks, maxBlocks);
    assert Reversed(rest) + ([p] + blocks) == Reversed(rest) + [p] + blocks;
  }

  /**
   * A run of frames leaves as list the accepted payloads, newest first, in
   * front of the old list, cut to `maxBlocks`.
   */
  lemma {:induction false} RunBlocks(s: FeedState, maxBlocks: nat, fs: seq<Frame>)
    requires Inv(s, maxBlocks)
    ensures Run(s, maxBlocks, fs).blocks == Take(Reversed(Accepted(s.processed, fs)) + s.blocks, maxBlocks)
    decreases |fs|
  {
    if fs == [] {
      assert Take(s.blocks, maxBlocks) == s.blocks;
    } else {
      var s' := Received(s, maxBlocks, fs[0]);
      ReceivedKeepsInv(s, maxBlocks, fs[0]);
      RunBlocks(s', maxBlocks, fs[1..]);
      if Fresh(s.processed, fs[0]) {
        var p := fs[0].payload;
        FreshNotListed(s, maxBlocks, p);
        var rest := Accepted(s'.processed, fs[1..]);
        assert Accepted(s.processed, fs) == [p] + rest;
        PrependNewest(rest, p, s.blocks, maxBlocks);
      } else {
        assert s'.blocks == s.blocks;
      }
    }
  }

  /**
   * The transaction count a run leaves for block `n` is the old one plus the
   * transactions of each new, distinct payload numbered `n`: a payload replayed
   * under the same key is never counted again.
   */
  lemma CountsAfterRun(s: FeedState, maxBlocks: nat, fs: seq<Frame>, n: int)
    ensures TransactionCounts.CountOrZero(Run(s, maxBlocks, fs).counts, n)
      == TransactionCounts.CountOrZero(s.counts, n) + TxFor(Accepted(s.processed, fs), n)
  {
    RunCounts(s, maxBlocks, fs);
    ForwardedCounts(s.counts, Accepted(s.processed, fs), n);
  }

  /**
   * A second payload under a key already seen is dropped whole, even when its
   * other fields (its gas used, say) differ from the first.
   */
  lemma ReplayIgnored(s: FeedState, maxBlocks: nat, p: Payload, q: Payload)
    requires HasBlockHash(p) && IdentityOf(q) == IdentityOf(p)
    ensures Received(Received(s, maxBlocks, Parsed(p)), maxBlocks, Parsed(q)) == Received(s, maxBlocks, Parsed(p))
  {
    BlockIdentifierInjective(p, q);
  }

  /** The stateful hook: its list and seen-set, and the shared count store it writes to. */
  class FlashblocksFeed {
    const maxBlocks: nat
    const store: TransactionCounts.Store
    var blocks: seq<Payload>
    var processed: set<string>

    function State(): FeedState
      reads this, store
    {
      FeedState(blocks, processed, store.counts)
    }

    ghost predicate Valid()
      reads this, store
    {
      Inv(State(), maxBlocks)
    }

    /** A feed with the default bound starts with an empty list and seen-set. */
    constructor (store: TransactionCounts.Store)
      ensures this.store == store && maxBlocks == AppConstants.MaxBlocks
      ensures State() == InitialFeed(store.counts) && Valid()
    {
      this.store := store;
      maxBlocks := AppConstants.MaxBlocks;
      blocks := [];
      processed := {};
    }

    method HandleMessage(f: Frame)
      requires Valid()
      modifies this, store
      ensures Valid()
      ensures State() == Received(old(State()), maxBlocks, f)
    {
      if f.Unparsable? {
        return;
      }
      var data := f.payload;
      if !HasBlockHash(data) {
        return;
      }
      var blockIdentifier := BlockIdentifier(data);
      if blockIdentifier in processed {
        return;
      }
      ReceivedKeepsInv(State(), maxBlocks, f);
      processed := processed + {blockIdentifier};
      if NonZero(BlockNumberOf(data)) {
        store.AddTransactions(BlockNumberOf(data).value, TxCount(data));
      }
      var existing := FindIndex(blocks, data);
      if existing == -1 {
        var newBlocks := [data] + blocks;
        if |newBlocks| > maxBlocks {
          newBlocks := newBlocks[..maxBlocks];
        }
        blocks := newBlocks;
      }
    }

    method ClearBlocks()
      requires Valid()
      modifies this
      ensures Valid()
      ensures State() == Cleared(old(State()))
    {
      blocks := [];
      processed := {};
    }
  }
}
