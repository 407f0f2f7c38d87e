/**
 * The reconnect policy of the WebSocket `onclose` handler (app.js:484-494)
 * and the staleness test of the heartbeat monitor (app.js:1491-1505).
 */
module Connection {
  import opened Config

  /** The status the handlers report through updateConnectionStatus. */
  datatype ConnectionStatus = Connecting | Connected | Errored

  /** `Math.min(5000 * attempts, MAX_RECONNECT_DELAY)`: linear backoff, capped. */
  function ReconnectDelay(attempts: nat): (d: nat)
    ensures d <= MaxReconnectDelay
    ensures d <= ReconnectBaseDelay * attempts
    ensures d == MaxReconnectDelay || d == ReconnectBaseDelay * attempts
  {
    if ReconnectBaseDelay * attempts < MaxReconnectDelay then ReconnectBaseDelay * attempts
    else MaxReconnectDelay
  }

  /** More failed attempts never shorten the wait. */
  lemma ReconnectDelayMonotone(a: nat, b: nat)
    requires a <= b
    ensures ReconnectDelay(a) <= ReconnectDelay(b)
  {
  }

  /** From the sixth attempt on the delay stays at the cap. */
  lemma ReconnectDelayCapped(a: nat)
    requires a >= 6
    ensures ReconnectDelay(a) == MaxReconnectDelay
  {
  }

  lemma ReconnectDelayExamples()
    ensures ReconnectDelay(1) == 5000 && ReconnectDelay(2) == 10000
    ensures ReconnectDelay(3) == 15000 && ReconnectDelay(7) == 30000
  {
  }

  /** The heartbeat forces a reconnect only after more than HeartbeatTimeout ms without any message. */
  predicate Stale(lastHeartbeat: int, now: int)
  {
    now - lastHeartbeat > HeartbeatTimeout
  }

  /** Example: a message 31 s old is stale, one exactly 30 s old is not. */
  lemma StaleExamples(t: int)
    ensures Stale(t, t + 31000)
    ensures !Stale(t, t + 30000)
  {
  }
}
