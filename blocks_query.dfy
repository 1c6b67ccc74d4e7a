/**
 * The block feed: `newHeads` notifications are validated, timed against the
 * previous arrival, deduplicated by hash and put at the head of a bounded
 * list; replies and errors update the subscription id and a bounded error
 * log; manual reconnects are rate-limited.
 */
module BlocksQuery {
  import opened Common
  import opened WebSocketTypes
  import WebSocketBase

  /** How many inter-arrival gaps the average is taken over. */
  const GapWindow: nat := 5
  /** How many entries the error log keeps. */
  const ErrorLogSize: nat := 5
  /** A manual reconnect needs strictly more than this many ms since the last one. */
  const ReconnectCooldownMs: int := 10000
  /** The delay after open before the subscription request, and after it before the fallback. */
  const SubscribeDelayMs: int := 500
  const FallbackDelayMs: int := 1000

  /** `blockHeader.hash && blockHeader.number`: both truthy. */
  predicate ValidHeader(h: BlockHeader) {
    Present(h.hash) && Present(h.number)
  }

  /** `prevBlocks.some(block => block.hash === blockHeader.hash)` */
  predicate HashListed(blocks: seq<BlockHeader>, hash: Option<string>) {
    exists i :: 0 <= i < |blocks| && blocks[i].hash == hash
  }

  /**
   * The `setBlocks` updater: a header whose hash is listed leaves the list as
   * it was; otherwise it goes first and the list is cut to `maxBlocks`.
   */
  function InsertHeader(blocks: seq<BlockHeader>, h: BlockHeader, maxBlocks: nat): (r: seq<BlockHeader>)
    ensures HashListed(blocks, h.hash) ==> r == blocks
    ensures !HashListed(blocks, h.hash) ==> r == Take([h] + blocks, maxBlocks)
    ensures !HashListed(blocks, h.hash) ==> |r| == Min(|blocks| + 1, maxBlocks)
    ensures !HashListed(blocks, h.hash) && 0 < maxBlocks ==> r[0] == h
    ensures !HashListed(blocks, h.hash) ==> forall i :: 0 < i < |r| ==> r[i] == blocks[i - 1]
  {
    if HashListed(blocks, h.hash) then blocks
    else
      var newBlocks := [h] + blocks;
      if |newBlocks| > maxBlocks then newBlocks[..maxBlocks] else newBlocks
  }

  function Sum(s: seq<int>): int
    decreases |s|
  {
    if s == [] then 0 else Sum(s[..|s| - 1]) + s[|s| - 1]
  }

  /**
   * `Math.round(sum / length)`: the integer nearest to the mean, halves
   * rounded up, i.e. `floor(sum / n + 1/2)`.
   */
  function RoundedMean(s: seq<int>): (r: int)
    requires |s| > 0
    ensures 2 * |s| * r - |s| <= 2 * Sum(s) < 2 * |s| * r + |s|
  {
    var n := |s|;
    var q := (2 * Sum(s) + n) / (2 * n);
    assert 2 * Sum(s) + n == 2 * n * q + (2 * Sum(s) + n) % (2 * n);
    q
  }

  /** The rounded mean is the only integer within half a unit of the mean. */
  lemma RoundedMeanUnique(s: seq<int>, r: int)
    requires |s| > 0
    requires 2 * |s| * r - |s| <= 2 * Sum(s) < 2 * |s| * r + |s|
    ensures r == RoundedMean(s)
  {
    WithinHalfUnique(|s|, 2 * Sum(s), r, RoundedMean(s));
  }

  /** Two integers within half a unit of the same mean `t / 2n` are equal. */
  lemma WithinHalfUnique(n: int, t: int, a: int, b: int)
    requires n > 0
    requires 2 * n * a - n <= t < 2 * n * a + n
    requires 2 * n * b - n <= t < 2 * n * b + n
    ensures a == b
  {
    if a < b {
      ScaledGap(n, a, b);
    } else if b < a {
      ScaledGap(n, b, a);
    }
  }



  /** `[...prev, gap].slice(-5)` */
  function PushGap(window: seq<int>, gap: int): (r: seq<int>)
    ensures r == TakeLast(window + [gap], GapWindow)
    ensures 0 < |r| <= GapWindow && r[|r| - 1] == gap
  {
    var updated := window + [gap];
    if |updated| > 5 then updated[|updated| - 5..] else updated
  }

  /** Feeding gaps one at a time keeps exactly the last five of all of them. */
  lemma {:induction false} PushGapsWindow(window: seq<int>, gaps: seq<int>)
    requires |window| <= GapWindow
    ensures PushGaps(window, gaps) == TakeLast(window + gaps, GapWindow)
    decreases |gaps|
  {
    if gaps == [] {
      assert window + gaps == window;
    } else {
      var w := PushGap(window, gaps[0]);
      PushGapsWindow(w, gaps[1..]);
      TakeLastStep(window, gaps, GapWindow);
    }
  }

  function PushGaps(window: seq<int>, gaps: seq<int>): seq<int>
    decreases |gaps|
  {
    if gaps == [] then window else PushGaps(PushGap(window, gaps[0]), gaps[1..])
  }

  /** `[...prev.slice(-4), entry]`: the oldest entries go once the log would exceed five. */
  function PushError(log: seq<string>, entry: string): (r: seq<string>)
    ensures r == TakeLast(log + [entry], ErrorLogSize)
    ensures 0 < |r| <= ErrorLogSize && r[|r| - 1] == entry
  {
    var kept := if |log| > 4 then log[|log| - 4..] else log;
    kept + [entry]
  }

  /** A JSON-RPC id: JSON numbers and strings are truthy unless 0 or empty. */
  datatype RpcId = NumberId(n: int) | TextId(text: string)

  predicate IdTruthy(id: Option<RpcId>) {
    match id
    case None => false
    case Some(NumberId(n)) => n != 0
    case Some(TextId(t)) => t != ""
  }

  datatype SubscriptionParams = SubscriptionParams(subscription: Option<string>, result: Option<BlockHeader>)

  datatype RpcError = RpcError(message: Option<string>)

  /** The fields of an inbound JSON-RPC message the handler looks at. */
  datatype RpcMessage = RpcMessage(
    rpcMethod: Option<string>,
    params: Option<SubscriptionParams>,
    id: Option<RpcId>,
    result: Option<string>,
    error: Option<RpcError>)

  /** One inbound text frame: it failed to parse (with the exception's message), or it is a JSON-RPC message. */
  datatype Frame = Unparsable(reason: string) | Json(msg: RpcMessage)

  datatype Kind = Notification | Confirmation | ErrorReply | Other

  /** The handler's branch order: a notification with a result, then `id && result`, then `error`. */
  function Classify(m: RpcMessage): (k: Kind)
    ensures k == Notification <==> m.rpcMethod == Some("eth_subscription") && m.params.Some? && m.params.value.result.Some?
    ensures k == Confirmation <==>
      !(m.rpcMethod == Some("eth_subscription") && m.params.Some? && m.params.value.result.Some?)
      && IdTruthy(m.id) && Present(m.result)
    ensures k == ErrorReply <==>
      !(m.rpcMethod == Some("eth_subscription") && m.params.Some? && m.params.value.result.Some?)
      && !(IdTruthy(m.id) && Present(m.result)) && m.error.Some?
    ensures k == Other ==> m.error.None?
  {
    if m.rpcMethod == Some("eth_subscription") && m.params.Some? && m.params.value.result.Some? then Notification
    else if IdTruthy(m.id) && Present(m.result) then Confirmation
    else if m.error.Some? then ErrorReply
    else Other
  }

  /** The hook's state. `None` stands for `null`. */
  datatype BlocksState = BlocksState(
    blocks: seq<BlockHeader>,
    blockTimeMs: Option<int>,
    lastBlockTime: Option<int>,
    blockTimes: seq<int>,
    connectionErrors: seq<string>,
    subscriptionId: Option<string>,
    lastReconnectTime: Option<int>)

  function InitialBlocks(): BlocksState {
    BlocksState([], None, None, [], [], None, None)
  }

  /**
   * `processNewBlock` at time `now`: an invalid header changes nothing; a
   * valid one records a gap when there is a (truthy) previous arrival time,
   * always records its own arrival, and only then is checked against the list.
   */
  function ProcessNewBlock(s: BlocksState, maxBlocks: nat, now: int, h: BlockHeader): BlocksState {
    if !ValidHeader(h) then s
    else
      var timed :=
        if NonZero(s.lastBlockTime) then
          var updated := PushGap(s.blockTimes, now - s.lastBlockTime.value);
          s.(blockTimes := updated, blockTimeMs := Some(RoundedMean(updated)))
        else s;
      timed.(lastBlockTime := Some(now), blocks := InsertHeader(s.blocks, h, maxBlocks))
  }

  /** A header missing its hash or its number changes neither the list nor the timing. */
  lemma InvalidHeaderIgnored(s: BlocksState, maxBlocks: nat, now: int, h: BlockHeader)
    requires !ValidHeader(h)
    ensures ProcessNewBlock(s, maxBlocks, now, h) == s
  {
  }

  /** `handleMessage` at time `now`. */
  function Received(s: BlocksState, maxBlocks: nat, now: int, f: Frame): BlocksState {
    match f
    case Unparsable(reason) => s.(connectionErrors := PushError(s.connectionErrors, "Parse error: " + reason))
    case Json(m) =>
      match Classify(m)
      case Notification =>
        var sub := m.params.value.subscription;
        var s' := if !Present(s.subscriptionId) && Present(sub) then s.(subscriptionId := sub) else s;
        ProcessNewBlock(s', maxBlocks, now, m.params.value.result.value)
      case Confirmation => s.(subscriptionId := m.result)
      case ErrorReply =>
        var text := if Present(m.error.value.message) then m.error.value.message.value else "Unknown error";
        s.(connectionErrors := PushError(s.connectionErrors, "Error: " + text))
      case Other => s
  }

  /** `onOpen`: the error log is emptied and the subscription id forgotten. */
  function Opened(s: BlocksState): (r: BlocksState)
    ensures r.connectionErrors == [] && r.subscriptionId.None?
    ensures r == s.(connectionErrors := [], subscriptionId := None)
  {
    s.(connectionErrors := [], subscriptionId := None)
  }

  /** `onClose`: the subscription id is forgotten. */
  function Closed(s: BlocksState): (r: BlocksState)
    ensures r.subscriptionId.None? && r == s.(subscriptionId := None)
  {
    s.(subscriptionId := None)
  }

  /** `onError`: `WebSocket error: <message>` is logged, `Unknown error` when the event has no message. */
  function Errored(s: BlocksState, message: Option<string>): BlocksState {
    var text := if Present(message) then message.value else "Unknown error";
    s.(connectionErrors := PushError(s.connectionErrors, "WebSocket error: " + text))
  }

  /** Whether `handleReconnect` at `now` goes through. */
  predicate ReconnectAllowed(s: BlocksState, now: int) {
    !NonZero(s.lastReconnectTime) || now - s.lastReconnectTime.value > ReconnectCooldownMs
  }

  /** `handleReconnect` at `now`: accepted, it records `now` and forgets the subscription id; refused, nothing changes. */
  function Reconnected(s: BlocksState, now: int): (r: (bool, BlocksState))
    ensures r.0 == ReconnectAllowed(s, now)
    ensures r.0 ==> r.1 == s.(lastReconnectTime := Some(now), subscriptionId := None)
    ensures !r.0 ==> r.1 == s
  {
    if ReconnectAllowed(s, now) then (true, s.(lastReconnectTime := Some(now), subscriptionId := None))
    else (false, s)
  }

  /** The subscription request sent 500 ms after open, with `id: Date.now()`. */
  function SubscribeRequest(now: int): (r: WebSocketBase.RpcRequest)
    ensures r.id == now && r.includeTransactions
  {
    WebSocketBase.Subscribe(now, true)
  }

  /** The fallback 1000 ms later: sent, with `id: Date.now() + 1`, only when no subscription id is stored. */
  function FallbackRequest(s: BlocksState, now: int): (r: Option<WebSocketBase.RpcRequest>)
    ensures r.Some? <==> !Present(s.subscriptionId)
    ensures r.Some? ==> r.value.id == now + 1 && !r.value.includeTransactions
  {
    if !Present(s.subscriptionId) then Some(WebSocketBase.Subscribe(now + 1, false)) else None
  }

  predicate HashesUnique(blocks: seq<BlockHeader>) {
    forall i, j :: 0 <= i < j < |blocks| ==> blocks[i].hash != blocks[j].hash
  }

  /**
   * What every handler keeps: the list is within bound, valid and free of
   * repeated hashes; the gap window holds at most five gaps and, once it holds
   * any, the reported block time is their rounded mean; the error log holds at
   * most five entries.
   */
  predicate Inv(s: BlocksState, maxBlocks: nat) {
    && |s.blocks| <= maxBlocks
    && (forall i :: 0 <= i < |s.blocks| ==> ValidHeader(s.blocks[i]))
    && HashesUnique(s.blocks)
    && |s.blockTimes| <= GapWindow
    && (|s.blockTimes| > 0 ==> s.blockTimeMs == Some(RoundedMean(s.blockTimes)))
    && |s.connectionErrors| <= ErrorLogSize
  }

  lemma InsertHeaderKeepsUnique(blocks: seq<BlockHeader>, h: BlockHeader, maxBlocks: nat)
    requires HashesUnique(blocks)
    ensures HashesUnique(InsertHeader(blocks, h, maxBlocks))
  {
    var r := InsertHeader(blocks, h, maxBlocks);
    if !HashListed(blocks, h.hash) {
      forall i, j | 0 <= i < j < |r| ensures r[i].hash != r[j].hash {
        assert r[j] == blocks[j - 1];
        if i > 0 {
          assert r[i] == blocks[i - 1];
        }
      }
    }
  }

  lemma ProcessNewBlockKeepsInv(s: BlocksState, maxBlocks: nat, now: int, h: BlockHeader)
    requires Inv(s, maxBlocks)
    ensures Inv(ProcessNewBlock(s, maxBlocks, now, h), maxBlocks)
  {
    InsertHeaderKeepsUnique(s.blocks, h, maxBlocks);
  }

  lemma ReceivedKeepsInv(s: BlocksState, maxBlocks: nat, now: int, f: Frame)
    requires Inv(s, maxBlocks)
    ensures Inv(Received(s, maxBlocks, now, f), maxBlocks)
  {
    if f.Json? && Classify(f.msg) == Notification {
      var m := f.msg;
      var sub := m.params.value.subscription;
      var s' := if !Present(s.subscriptionId) && Present(sub) then s.(subscriptionId := sub) else s;
      ProcessNewBlockKeepsInv(s', maxBlocks, now, m.params.value.result.value);
    }
  }

  /** The block feed's events, each carrying the time it happens at. */
  datatype Event =
    | Message(now: int, frame: Frame)
    | OpenEvent
    | CloseEvent
    | ErrorEvent(message: Option<string>)
    | ReconnectClicked(now: int)

  function Next(s: BlocksState, maxBlocks: nat, e: Event): BlocksState {
    match e
    case Message(now, f) => Received(s, maxBlocks, now, f)
    case OpenEvent => Opened(s)
    case CloseEvent => Closed(s)
    case ErrorEvent(message) => Errored(s, message)
    case ReconnectClicked(now) => Reconnected(s, now).1
  }

  function Run(s: BlocksState, maxBlocks: nat, es: seq<Event>): BlocksState
    decreases |es|
  {
    if es == [] then s else Run(Next(s, maxBlocks, es[0]), maxBlocks, es[1..])
  }

  lemma {:induction false} RunKeepsInv(s: BlocksState, maxBlocks: nat, es: seq<Event>)
    requires Inv(s, maxBlocks)
    ensures Inv(Run(s, maxBlocks, es), maxBlocks)
    decreases |es|
  {
    if es != [] {
      if es[0].Message? {
        ReceivedKeepsInv(s, maxBlocks, es[0].now, es[0].frame);
      }
      RunKeepsInv(Next(s, maxBlocks, es[0]), maxBlocks, es[1..]);
    }
  }

  /**
   * Timing comes before the duplicate check: a valid header whose hash is
   * already listed still records a gap and its arrival time, and leaves the
   * list as it was.
   */
  lemma DuplicateStillTimed(s: BlocksState, maxBlocks: nat, now: int, h: BlockHeader)
    requires ValidHeader(h) && HashListed(s.blocks, h.hash) && NonZero(s.lastBlockTime)
    ensures var r := ProcessNewBlock(s, maxBlocks, now, h);
      && r.blocks == s.blocks
      && r.lastBlockTime == Some(now)
      && r.blockTimes == TakeLast(s.blockTimes + [now - s.lastBlockTime.value], GapWindow)
  {
  }

  /** Without a previous arrival time no gap is recorded and the block time stays as it was. */
  lemma FirstArrivalNoGap(s: BlocksState, maxBlocks: nat, now: int, h: BlockHeader)
    requires !NonZero(s.lastBlockTime)
    ensures var r := ProcessNewBlock(s, maxBlocks, now, h);
      && r.blockTimes == s.blockTimes
      && r.blockTimeMs == s.blockTimeMs
  {
  }

  /** The arrivals of a header stream: a time and a header each. */
  datatype Arrival = Arrival(now: int, header: BlockHeader)

  /** The gaps a stream of arrivals records, starting from previous arrival time `last`. */
  function Gaps(last: Option<int>, arrivals: seq<Arrival>): seq<int>
    decreases |arrivals|
  {
    if arrivals == [] then []
    else
      var a := arrivals[0];
      if !ValidHeader(a.header) then Gaps(last, arrivals[1..])
      else (if NonZero(last) then [a.now - last.value] else []) + Gaps(Some(a.now), arrivals[1..])
  }

  function Arrive(s: BlocksState, maxBlocks: nat, arrivals: seq<Arrival>): BlocksState
    decreases |arrivals|
  {
    if arrivals == [] then s
    else Arrive(ProcessNewBlock(s, maxBlocks, arrivals[0].now, arrivals[0].header), maxBlocks, arrivals[1..])
  }

  /** After a stream of headers the window is the last five of every gap recorded, in order. */
  lemma {:induction false} ArriveWindow(s: BlocksState, maxBlocks: nat, arrivals: seq<Arrival>)
    ensures Arrive(s, maxBlocks, arrivals).blockTimes == PushGaps(s.blockTimes, Gaps(s.lastBlockTime, arrivals))
    decreases |arrivals|
  {
    if arrivals != [] {
      var a := arrivals[0];
      var s' := ProcessNewBlock(s, maxBlocks, a.now, a.header);
      ArriveWindow(s', maxBlocks, arrivals[1..]);
      if ValidHeader(a.header) && NonZero(s.lastBlockTime) {
        var g := a.now - s.lastBlockTime.value;
        assert Gaps(s.lastBlockTime, arrivals) == [g] + Gaps(Some(a.now), arrivals[1..]);
        assert ([g] + Gaps(Some(a.now), arrivals[1..]))[1..] == Gaps(Some(a.now), arrivals[1..]);
      } else if ValidHeader(a.header) {
        assert Gaps(s.lastBlockTime, arrivals) == Gaps(Some(a.now), arrivals[1..]);
      }
    }
  }

  /** Hence the block time reported after a stream is the rounded mean of the last five gaps it recorded. */
  lemma ArriveBlockTime(s: BlocksState, maxBlocks: nat, arrivals: seq<Arrival>)
    requires Inv(s, maxBlocks)
    ensures var r := Arrive(s, maxBlocks, arrivals);
      && r.blockTimes == TakeLast(s.blockTimes + Gaps(s.lastBlockTime, arrivals), GapWindow)
      && (|r.blockTimes| > 0 ==> r.blockTimeMs == Some(RoundedMean(r.blockTimes)))
  {
    ArriveWindow(s, maxBlocks, arrivals);
    PushGapsWindow(s.blockTimes, Gaps(s.lastBlockTime, arrivals));
    ArriveKeepsInv(s, maxBlocks, arrivals);
  }

  lemma {:induction false} ArriveKeepsInv(s: BlocksState, maxBlocks: nat, arrivals: seq<Arrival>)
    requires Inv(s, maxBlocks)
    ensures Inv(Arrive(s, maxBlocks, arrivals), maxBlocks)
    decreases |arrivals|
  {
    if arrivals != [] {
      ProcessNewBlockKeepsInv(s, maxBlocks, arrivals[0].now, arrivals[0].header);
      ArriveKeepsInv(ProcessNewBlock(s, maxBlocks, arrivals[0].now, arrivals[0].header), maxBlocks, arrivals[1..]);
    }
  }

  /** The times of the reconnect clicks that went through, from state `s` on. */
  function ReconnectTimes(s: BlocksState, maxBlocks: nat, es: seq<Event>): seq<int>
    decreases |es|
  {
    if es == [] then []
    else
      var rest := ReconnectTimes(Next(s, maxBlocks, es[0]), maxBlocks, es[1..]);
      if es[0].ReconnectClicked? && ReconnectAllowed(s, es[0].now) then [es[0].now] + rest else rest
  }

  /** The last accepted reconnect time survives every event but an accepted reconnect. */
  lemma NextKeepsReconnectTime(s: BlocksState, maxBlocks: nat, e: Event)
    requires !(e.ReconnectClicked? && ReconnectAllowed(s, e.now))
    ensures Next(s, maxBlocks, e).lastReconnectTime == s.lastReconnectTime
  {
    if e.Message? {
      match e.frame
      case Unparsable(_) =>
      case Json(m) =>
        if Classify(m) == Notification {
          var sub := m.params.value.subscription;
          var s' := if !Present(s.subscriptionId) && Present(sub) then s.(subscriptionId := sub) else s;
          assert ProcessNewBlock(s', maxBlocks, e.now, m.params.value.result.value).lastReconnectTime == s.lastReconnectTime;
        }
    }
  }

  /**
   * Each time follows its predecessor by more than the cooldown, the first
   * one following `last`; a predecessor of 0 is falsy and imposes no wait.
   */
  predicate Spaced(last: Option<int>, ts: seq<int>) {
    && (|ts| > 0 && NonZero(last) ==> ts[0] - last.value > ReconnectCooldownMs)
    && (forall i :: 0 <= i < |ts| - 1 && ts[i] != 0 ==> ts[i + 1] - ts[i] > ReconnectCooldownMs)
  }

  /**
   * The rate limit over a whole run: the first accepted reconnect follows the
   * recorded one by more than 10000 ms, and each accepted reconnect follows
   * the previous accepted one by more than 10000 ms (a recorded time of 0 is
   * falsy and imposes no wait).
   */
  lemma {:induction false} ReconnectsSpaced(s: BlocksState, maxBlocks: nat, es: seq<Event>)
    ensures Spaced(s.lastReconnectTime, ReconnectTimes(s, maxBlocks, es))
    decreases |es|
  {
    if es != [] {
      var s' := Next(s, maxBlocks, es[0]);
      ReconnectsSpaced(s', maxBlocks, es[1..]);
      var rest := ReconnectTimes(s', maxBlocks, es[1..]);
      if es[0].ReconnectClicked? && ReconnectAllowed(s, es[0].now) {
        var ts := [es[0].now] + rest;
        assert s'.lastReconnectTime == Some(es[0].now);
        forall i | 0 <= i < |ts| - 1 && ts[i] != 0 ensures ts[i + 1] - ts[i] > ReconnectCooldownMs {
          if i > 0 {
            assert ts[i + 1] == rest[i] && ts[i] == rest[i - 1];
            var j := i - 1;
            assert rest[j + 1] == rest[i];
          } else {
            assert ts[1] == rest[0] && ts[0] == es[0].now;
            assert NonZero(s'.lastReconnectTime);
          }
        }
      } else {
        NextKeepsReconnectTime(s, maxBlocks, es[0]);
      }
    }
  }

  /** A notification stores its subscription id only when none is stored; a confirmation always overwrites it. */
  lemma SubscriptionIdRules(s: BlocksState, maxBlocks: nat, now: int, m: RpcMessage)
    ensures Classify(m) == Notification && Present(s.subscriptionId) ==>
      Received(s, maxBlocks, now, Json(m)).subscriptionId == s.subscriptionId
    ensures Classify(m) == Notification && !Present(s.subscriptionId) && Present(m.params.value.subscription) ==>
      Received(s, maxBlocks, now, Json(m)).subscriptionId == m.params.value.subscription
    ensures Classify(m) == Confirmation ==> Received(s, maxBlocks, now, Json(m)) == s.(subscriptionId := m.result)
  {
  }

  /** Errors and parse failures only append to the log, keeping its last five entries; an open empties it. */
  lemma ErrorLogRules(s: BlocksState, maxBlocks: nat, now: int, f: Frame, message: Option<string>)
    ensures var r := Errored(s, message);
      r.connectionErrors == TakeLast(s.connectionErrors + [r.connectionErrors[|r.connectionErrors| - 1]], ErrorLogSize)
      && r == s.(connectionErrors := r.connectionErrors)
    ensures f.Unparsable? ==>
      Received(s, maxBlocks, now, f).connectionErrors == TakeLast(s.connectionErrors + ["Parse error: " + f.reason], ErrorLogSize)
    ensures Errored(s, message).connectionErrors ==
      TakeLast(s.connectionErrors + ["WebSocket error: " + (if Present(message) then message.value else "Unknown error")], ErrorLogSize)
    ensures f.Json? && Classify(f.msg) == ErrorReply ==>
      Received(s, maxBlocks, now, f).connectionErrors ==
        TakeLast(s.connectionErrors + ["Error: " + (if Present(f.msg.error.value.message) then f.msg.error.value.message.value else "Unknown error")], ErrorLogSize)
    ensures Opened(s).connectionErrors == []
  {
  }

  /** A fallback sent at any time not before the subscription is a different request: another id, no transactions. */
  lemma FallbackDistinctFromSubscribe(s: BlocksState, now: int, later: int)
    requires now <= later
    ensures FallbackRequest(s, later).Some? ==>
      FallbackRequest(s, later).value.id == later + 1
      && FallbackRequest(s, later).value.id != SubscribeRequest(now).id
      && !FallbackRequest(s, later).value.includeTransactions && SubscribeRequest(now).includeTransactions
  {
  }

  /** The stateful hook. */
  class BlocksFeed {
    const maxBlocks: nat
    var blocks: seq<BlockHeader>
    var blockTimeMs: Option<int>
    var lastBlockTime: Option<int>
    var blockTimes: seq<int>
    var connectionErrors: seq<string>
    var subscriptionId: Option<string>
    var lastReconnectTime: Option<int>

    function State(): BlocksState
      reads this
    {
      BlocksState(blocks, blockTimeMs, lastBlockTime, blockTimes, connectionErrors, subscriptionId, lastReconnectTime)
    }

    ghost predicate Valid()
      reads this
    {
      Inv(State(), maxBlocks)
    }

    constructor (maxBlocks: nat)
      ensures this.maxBlocks == maxBlocks && State() == InitialBlocks() && Valid()
    {
      this.maxBlocks := maxBlocks;
      blocks, blockTimeMs, lastBlockTime, blockTimes := [], None, None, [];
      connectionErrors, subscriptionId, lastReconnectTime := [], None, None;
    }

    method LogError(entry: string)
      modifies this
      ensures State() == old(State()).(connectionErrors := PushError(old(connectionErrors), entry))
    {
      var kept := if |connectionErrors| > 4 then connectionErrors[|connectionErrors| - 4..] else connectionErrors;
      connectionErrors := kept + [entry];
    }

    method ProcessNewBlockAt(now: int, h: BlockHeader)
      requires Valid()
      modifies this
      ensures Valid()
      ensures State() == ProcessNewBlock(old(State()), maxBlocks, now, h)
    {
      ghost var s0 := State();
      ProcessNewBlockKeepsInv(s0, maxBlocks, now, h);
      if !Present(h.hash) || !Present(h.number) {
        return;
      }
      if NonZero(lastBlockTime) {
        var updated := PushGap(blockTimes, now - lastBlockTime.value);
        blockTimes := updated;
        blockTimeMs := Some(RoundedMean(updated));
      }
      lastBlockTime := Some(now);
      blocks := InsertHeader(blocks, h, maxBlocks);
      assert State() == ProcessNewBlock(s0, maxBlocks, now, h);
    }

    method HandleMessage(now: int, f: Frame)
      requires Valid()
      modifies this
      ensures Valid()
      ensures State() == Received(old(State()), maxBlocks, now, f)
    {
      ReceivedKeepsInv(State(), maxBlocks, now, f);
      match f
      case Unparsable(reason) =>
        LogError("Parse error: " + reason);
      case Json(data) =>
        var kind := Classify(data);
        if kind == Notification {
          if !Present(subscriptionId) && Present(data.params.value.subscription) {
            subscriptionId := data.params.value.subscription;
          }
          ProcessNewBlockAt(now, data.params.value.result.value);
        } else if kind == Confirmation {
          subscriptionId := data.result;
        } else if kind == ErrorReply {
          var text := if Present(data.error.value.message) then data.error.value.message.value else "Unknown error";
          LogError("Error: " + text);
        }
    }

    method OnOpen()
      requires Valid()
      modifies this
      ensures Valid()
      ensures State() == Opened(old(State()))
    {
      connectionErrors := [];
      subscriptionId := None;
    }

    method OnClose()
      requires Valid()
      modifies this
      ensures Valid()
      ensures State() == Closed(old(State()))
    {
      subscriptionId := None;
    }

    method OnError(message: Option<string>)
      requires Valid()
      modifies this
      ensures Valid()
      ensures State() == Errored(old(State()), message)
    {
      var text := if Present(message) then message.value else "Unknown error";
      LogError("WebSocket error: " + text);
    }

    /** `handleReconnect`; `accepted` says whether the socket's `reconnect` is called. */
    method HandleReconnect(now: int) returns (accepted: bool)
      requires Valid()
      modifies this
      ensures Valid()
      ensures (accepted, State()) == Reconnected(old(State()), now)
    {
      accepted := false;
      if !NonZero(lastReconnectTime) || now - lastReconnectTime.value > 10000 {
        lastReconnectTime := Some(now);
        subscriptionId := None;
        accepted := true;
      }
    }

    /** The 500 ms timer after open fired: the subscription request to send. */
    method SubscribeDelayElapsed(now: int) returns (request: WebSocketBase.RpcRequest)
      ensures request == SubscribeRequest(now)
      ensures request.id == now && request.includeTransactions
    {
      request := WebSocketBase.Subscribe(now, true);
    }

    /** The 1000 ms fallback timer fired: the standard request, if no subscription id arrived. */
    method FallbackDelayElapsed(now: int) returns (request: Option<WebSocketBase.RpcRequest>)
      ensures request == FallbackRequest(State(), now)
    {
      if !Present(subscriptionId) {
        request := Some(WebSocketBase.Subscribe(now + 1, false));
      } else {
        request := None;
      }
    }
  }
}
