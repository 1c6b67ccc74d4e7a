/** Connection defaults and the integer reconnect backoff. */
module WebSocketConstants {
  import opened Common

  /** Reconnect attempts allowed between two successful opens, by default. */
  const DefaultReconnectAttempts: int := 10

  /** The longest wait between reconnect attempts, in milliseconds, by default. */
  const DefaultMaxReconnectTime: int := 30000

  /** The cap of the backoff below. */
  const BackoffCapMs: int := 30000

  function Pow2(n: nat): (r: nat)
    ensures r >= 1
  {
    if n == 0 then 1 else 2 * Pow2(n - 1)
  }

  /** `Math.min(Math.pow(2, n) * 1000, 30000)`: the delay before reconnect attempt `n`. */
  function GetReconnectInterval(attempt: nat): (ms: int)
    ensures 1000 <= ms <= BackoffCapMs
  {
    Min(Pow2(attempt) * 1000, BackoffCapMs)
  }

  lemma {:induction false} Pow2Monotone(m: nat, n: nat)
    requires m <= n
    ensures Pow2(m) <= Pow2(n)
    decreases n - m
  {
    if m < n {
      Pow2Monotone(m, n - 1);
    }
  }

  /** The first attempt waits one second; every later one waits at least as long as the one before. */
  lemma IntervalMonotone(m: nat, n: nat)
    requires m <= n
    ensures GetReconnectInterval(0) == 1000
    ensures GetReconnectInterval(m) <= GetReconnectInterval(n)
  {
    Pow2Monotone(m, n);
  }

  /** Below the cap each attempt waits twice as long as the one before. */
  lemma IntervalDoublesBelowCap(n: nat)
    requires GetReconnectInterval(n + 1) < BackoffCapMs
    ensures GetReconnectInterval(n + 1) == 2 * GetReconnectInterval(n)
  {
  }

  /** Attempt 4 waits 16 s, and from attempt 5 on every attempt waits the full 30 s. */
  lemma IntervalSaturates(n: nat)
    ensures GetReconnectInterval(4) == 16000
    ensures n >= 5 ==> GetReconnectInterval(n) == BackoffCapMs
  {
    assert Pow2(4) == 16 && Pow2(5) == 32;
    if n >= 5 {
      Pow2Monotone(5, n);
    }
  }
}
