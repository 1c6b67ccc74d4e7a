/**
 * The connection supervisor shared by both feeds: it counts reconnect
 * attempts, tracks whether the connection has stayed open long enough to be
 * called stable, maps the socket's ready state to a status text, and issues
 * subscription requests. The socket library itself is outside the model; its
 * callbacks and timers arrive here as events.
 */
module WebSocketBase {
  import opened Common
  import WebSocketConstants

  /** The socket library's ready states. */
  datatype ReadyState = Uninstantiated | Connecting | Open | Closing | Closed

  /** The status text shown for each ready state. */
  function ConnectionStatus(s: ReadyState): (status: string)
    ensures status in {"Uninstantiated", "Connecting", "Connected", "Disconnecting", "Disconnected"}
    ensures status == "Connected" <==> s == Open
  {
    match s
    case Connecting => "Connecting"
    case Open => "Connected"
    case Closing => "Disconnecting"
    case Closed => "Disconnected"
    case Uninstantiated => "Uninstantiated"
  }

  /** No two ready states share a status text. */
  lemma StatusIsInjective(a: ReadyState, b: ReadyState)
    ensures ConnectionStatus(a) == ConnectionStatus(b) ==> a == b
  {
  }

  /** `isConnected`: the status says "Connected" exactly when the socket is open. */
  predicate IsConnected(s: ReadyState)
    ensures IsConnected(s) <==> ConnectionStatus(s) == "Connected"
  {
    s == Open
  }

  /** The options a feed passes in. */
  datatype Config = Config(reconnectAttempts: int, shouldAutoReconnect: bool, maxReconnectTime: int)

  /** The defaults `useWebSocketBase` falls back on: ten attempts, auto-reconnect on, 30 s maximum delay. */
  function DefaultConfig(): (cfg: Config)
    ensures cfg.reconnectAttempts == 10 && cfg.shouldAutoReconnect && cfg.maxReconnectTime == 30000
  {
    Config(WebSocketConstants.DefaultReconnectAttempts, true, WebSocketConstants.DefaultMaxReconnectTime)
  }

  /** How long the connection must stay open before the stability timer fires, in milliseconds. */
  const StabilityWindowMs: int := 10000

  /**
   * The supervisor's state: the ready state the library reports, the
   * reconnect counter, the time of the last successful open, the stability
   * flag, the handle of the pending stability timer (if one is armed) and the
   * next handle the timer facility will hand out.
   */
  datatype ConnState = ConnState(
    readyState: ReadyState,
    reconnectCount: nat,
    lastSuccessfulConnection: Option<int>,
    isStable: bool,
    stableTimer: Option<nat>,
    nextTimer: nat)

  function Initial(): ConnState {
    ConnState(Uninstantiated, 0, None, false, None, 0)
  }

  /** The counter never passes the budget, and the pending timer's handle has been handed out. */
  predicate Inv(cfg: Config, s: ConnState) {
    && (s.reconnectCount == 0 || s.reconnectCount <= cfg.reconnectAttempts)
    && (s.stableTimer.Some? ==> s.stableTimer.value < s.nextTimer)
  }

  /** `shouldReconnect`: the answer it gives and the state after it. */
  function AskReconnect(cfg: Config, s: ConnState): (r: (bool, ConnState))
    ensures r.0 <==> cfg.shouldAutoReconnect && s.reconnectCount < cfg.reconnectAttempts
    ensures r.1.reconnectCount == if r.0 then s.reconnectCount + 1 else s.reconnectCount
    ensures r.1 == s.(reconnectCount := r.1.reconnectCount)
  {
    if !cfg.shouldAutoReconnect then (false, s)
    else if s.reconnectCount >= cfg.reconnectAttempts then (false, s)
    else (true, s.(reconnectCount := s.reconnectCount + 1))
  }

  /** `onOpen`: reset the counter, record the time, replace any pending timer by a fresh one. */
  function Opened(s: ConnState, now: int): (r: ConnState)
    ensures r.readyState == Open && r.reconnectCount == 0 && r.lastSuccessfulConnection == Some(now)
    ensures r.stableTimer == Some(s.nextTimer) && r.nextTimer > s.nextTimer
    ensures r.isStable == s.isStable
  {
    s.(readyState := Open, reconnectCount := 0, lastSuccessfulConnection := Some(now),
       stableTimer := Some(s.nextTimer), nextTimer := s.nextTimer + 1)
  }

  /** `onClose`: disarm the timer and clear the stability flag. */
  function ClosedState(s: ConnState): (r: ConnState)
    ensures r.readyState == Closed && !r.isStable && r.stableTimer.None?
    ensures r.reconnectCount == s.reconnectCount && r.nextTimer == s.nextTimer
    ensures r.lastSuccessfulConnection == s.lastSuccessfulConnection
  {
    s.(readyState := Closed, isStable := false, stableTimer := None)
  }

  /** `onError`: clear the stability flag; the pending timer stays armed. */
  function Errored(s: ConnState): (r: ConnState)
    ensures !r.isStable && r == s.(isStable := false)
  {
    s.(isStable := false)
  }

  /** A stability timer fires: only the pending one has any effect. */
  function TimerFired(s: ConnState, handle: nat): (r: ConnState)
    ensures r.isStable <==> s.isStable || s.stableTimer == Some(handle)
    ensures s.stableTimer != Some(handle) ==> r == s
  {
    if s.stableTimer == Some(handle) then s.(isStable := true, stableTimer := None) else s
  }

  /** The library starts a new socket. */
  function ConnectingState(s: ConnState): ConnState {
    s.(readyState := Connecting)
  }

  /** `reconnect()`: close the socket if there is one; the library then reports the close. */
  function CloseRequested(s: ConnState): (bool, ConnState) {
    if s.readyState == Uninstantiated then (false, s)
    else if s.readyState == Connecting || s.readyState == Open then (true, s.(readyState := Closing))
    else (true, s)
  }

  /** What can happen to a connection, in the order the library delivers it. */
  datatype Event =
    | OpenEvent(now: int)
    | CloseEvent
    | ErrorEvent
    | StableTimerEvent(handle: nat)
    | ConnectingEvent
    | ReconnectQuery
    | ManualReconnect

  function Next(cfg: Config, s: ConnState, e: Event): ConnState {
    match e
    case OpenEvent(now) => Opened(s, now)
    case CloseEvent => ClosedState(s)
    case ErrorEvent => Errored(s)
    case StableTimerEvent(h) => TimerFired(s, h)
    case ConnectingEvent => ConnectingState(s)
    case ReconnectQuery => AskReconnect(cfg, s).1
    case ManualReconnect => CloseRequested(s).1
  }

  function Run(cfg: Config, s: ConnState, es: seq<Event>): ConnState
    decreases |es|
  {
    if es == [] then s else Run(cfg, Next(cfg, s, es[0]), es[1..])
  }

  /** How many of the reconnect queries in `es` are answered yes. */
  function Grants(cfg: Config, s: ConnState, es: seq<Event>): nat
    decreases |es|
  {
    if es == [] then 0
    else (if es[0] == ReconnectQuery && AskReconnect(cfg, s).0 then 1 else 0)
         + Grants(cfg, Next(cfg, s, es[0]), es[1..])
  }

  predicate NoOpen(es: seq<Event>) {
    forall i :: 0 <= i < |es| ==> !es[i].OpenEvent?
  }

  /** Every event keeps the counter within the budget and the timer handle issued. */
  lemma {:induction false} RunKeepsInv(cfg: Config, s: ConnState, es: seq<Event>)
    requires Inv(cfg, s)
    ensures Inv(cfg, Run(cfg, s, es))
    decreases |es|
  {
    if es != [] {
      RunKeepsInv(cfg, Next(cfg, s, es[0]), es[1..]);
    }
  }

  /**
   * Between two opens the library is told yes at most as often as the budget
   * has room left, and never when automatic reconnects are off.
   */
  lemma {:induction false} GrantsWithinBudget(cfg: Config, s: ConnState, es: seq<Event>)
    requires NoOpen(es)
    ensures Grants(cfg, s, es) <= Max(0, cfg.reconnectAttempts - s.reconnectCount)
    ensures !cfg.shouldAutoReconnect ==> Grants(cfg, s, es) == 0
    decreases |es|
  {
    if es != [] {
      assert NoOpen(es[1..]) by {
        forall i | 0 <= i < |es[1..]| ensures !es[1..][i].OpenEvent? {
          assert es[1..][i] == es[i + 1];
        }
      }
      GrantsWithinBudget(cfg, Next(cfg, s, es[0]), es[1..]);
    }
  }

  /** After an open, at most `reconnectAttempts` reconnects are granted until the next open. */
  lemma GrantsAfterOpen(cfg: Config, s: ConnState, now: int, es: seq<Event>)
    requires NoOpen(es)
    ensures Grants(cfg, Opened(s, now), es) <= Max(0, cfg.reconnectAttempts)
  {
    GrantsWithinBudget(cfg, Opened(s, now), es);
  }

  /**
   * Without an open, a connection with no pending timer that is not stable
   * stays unstable: a close before the timer fires ends the session unstable.
   */
  lemma {:induction false} NoTimerNoStability(cfg: Config, s: ConnState, es: seq<Event>)
    requires s.stableTimer.None? && !s.isStable
    requires NoOpen(es)
    ensures !Run(cfg, s, es).isStable
    decreases |es|
  {
    if es != [] {
      assert NoOpen(es[1..]) by {
        forall i | 0 <= i < |es[1..]| ensures !es[1..][i].OpenEvent? {
          assert es[1..][i] == es[i + 1];
        }
      }
      NoTimerNoStability(cfg, Next(cfg, s, es[0]), es[1..]);
    }
  }

  /** A close, whatever came before it, leaves the connection unstable until the next open. */
  lemma ClosedSessionNeverStable(cfg: Config, s: ConnState, es: seq<Event>)
    requires NoOpen(es)
    ensures !Run(cfg, ClosedState(s), es).isStable
  {
    NoTimerNoStability(cfg, ClosedState(s), es);
  }

  /**
   * The stability flag turns on only at a timer event whose handle is the
   * pending one at that moment.
   */
  lemma {:induction false} StableOnlyByPendingTimer(cfg: Config, s: ConnState, es: seq<Event>)
    requires !s.isStable && Run(cfg, s, es).isStable
    ensures exists i :: 0 <= i < |es| && es[i].StableTimerEvent?
              && Run(cfg, s, es[..i]).stableTimer == Some(es[i].handle)
    decreases |es|
  {
    assert es != [];
    var t := Next(cfg, s, es[0]);
    assert es[..0] == [];
    if t.isStable {
      assert es[0].StableTimerEvent? && s.stableTimer == Some(es[0].handle);
      assert Run(cfg, s, es[..0]) == s;
    } else {
      StableOnlyByPendingTimer(cfg, t, es[1..]);
      var j :| 0 <= j < |es[1..]| && es[1..][j].StableTimerEvent?
               && Run(cfg, t, es[1..][..j]).stableTimer == Some(es[1..][j].handle);
      assert es[..j + 1][1..] == es[1..][..j];
      assert Run(cfg, s, es[..j + 1]) == Run(cfg, t, es[1..][..j]);
      assert es[j + 1] == es[1..][j];
    }
  }

  /** Re-opening replaces the pending timer: the old one's firing has no effect. */
  lemma ReopenReplacesTimer(cfg: Config, s: ConnState, now: int, h: nat)
    requires Inv(cfg, s) && s.stableTimer == Some(h)
    ensures TimerFired(Opened(s, now), h) == Opened(s, now)
  {
  }

  /** A JSON-RPC `eth_subscribe` request for `newHeads`, with or without `{ includeTransactions: true }`. */
  datatype RpcRequest = Subscribe(id: int, includeTransactions: bool)

  /** The module-wide request id counter, starting at 1. */
  class RequestIds {
    var next: int

    constructor ()
      ensures next == 1
    {
      next := 1;
    }
  }

  class Connection {
    const config: Config
    var readyState: ReadyState
    var reconnectCount: nat
    var lastSuccessfulConnection: Option<int>
    var isStable: bool
    var stableTimer: Option<nat>
    var nextTimer: nat

    function State(): ConnState
      reads this
    {
      ConnState(readyState, reconnectCount, lastSuccessfulConnection, isStable, stableTimer, nextTimer)
    }

    ghost predicate Valid()
      reads this
    {
      Inv(config, State())
    }

    constructor (config: Config)
      ensures this.config == config
      ensures State() == Initial() && Valid()
    {
      this.config := config;
      readyState := Uninstantiated;
      reconnectCount := 0;
      lastSuccessfulConnection := None;
      isStable := false;
      stableTimer := None;
      nextTimer := 0;
    }

    method ShouldReconnect() returns (reconnect: bool)
      requires Valid()
      modifies this
      ensures Valid()
      ensures (reconnect, State()) == AskReconnect(config, old(State()))
    {
      if !config.shouldAutoReconnect {
        return false;
      }
      if reconnectCount >= config.reconnectAttempts {
        return false;
      }
      reconnectCount := reconnectCount + 1;
      return true;
    }

    method OnOpen(now: int)
      requires Valid()
      modifies this
      ensures Valid()
      ensures State() == Opened(old(State()), now)
    {
      readyState := Open;
      reconnectCount := 0;
      lastSuccessfulConnection := Some(now);
      stableTimer := Some(nextTimer);
      nextTimer := nextTimer + 1;
    }

    method OnClose()
      requires Valid()
      modifies this
      ensures Valid()
      ensures State() == ClosedState(old(State()))
    {
      readyState := Closed;
      stableTimer := None;
      isStable := false;
    }

    method OnError()
      requires Valid()
      modifies this
      ensures Valid()
      ensures State() == Errored(old(State()))
    {
      isStable := false;
    }

    method OnStableTimer(handle: nat)
      requires Valid()
      modifies this
      ensures Valid()
      ensures State() == TimerFired(old(State()), handle)
    {
      if stableTimer == Some(handle) {
        isStable := true;
        stableTimer := None;
      }
    }

    method OnConnecting()
      requires Valid()
      modifies this
      ensures Valid()
      ensures State() == ConnectingState(old(State()))
    {
      readyState := Connecting;
    }

    /** `reconnect()`: `closeRequested` tells whether a socket existed to be closed. */
    method Reconnect() returns (closeRequested: bool)
      requires Valid()
      modifies this
      ensures Valid()
      ensures (closeRequested, State()) == CloseRequested(old(State()))
    {
      if readyState == Uninstantiated {
        return false;
      }
      if readyState == Connecting || readyState == Open {
        readyState := Closing;
      }
      return true;
    }

    /** `subscribeToNewHeads`: a request with the next id goes out only while connected. */
    method SubscribeToNewHeads(ids: RequestIds) returns (sent: Option<RpcRequest>)
      modifies ids
      ensures sent.Some? <==> IsConnected(readyState)
      ensures sent.Some? ==> sent.value == Subscribe(old(ids.next), false) && ids.next == old(ids.next) + 1
      ensures sent.None? ==> ids.next == old(ids.next)
    {
      if IsConnected(readyState) {
        sent := Some(Subscribe(ids.next, false));
        ids.next := ids.next + 1;
      } else {
        sent := None;
      }
    }
  }
}
