/** The WebSocket link each page keeps to the relay: the socket's state and
    the bounded reconnect counter. setup.js and output.js carry the same
    code, so one model serves both. */
module Transport {
  import opened Values
  import opened Protocol

  /** `MAX_RECONNECT_ATTEMPTS` */
  const MaxReconnectAttempts: nat := 5

  /** The factor of `setTimeout(initWebSocket, 2000 * wsReconnectAttempts)`. */
  const BaseDelayMs: nat := 2000

  /** The counter after a close, and the delay of the retry it schedules. */
  datatype Retry = Retry(attempts: nat, delay: Option<nat>)

  /** `onclose`: a retry is scheduled only while fewer than five have been
      made since the last open; the n-th waits n times two seconds. */
  function CloseStep(attempts: nat): (r: Retry)
    ensures r.delay.Some? <==> attempts < MaxReconnectAttempts
    ensures r.delay.Some? ==> r.attempts == attempts + 1 && r.delay.value == BaseDelayMs * r.attempts
    ensures r.delay.None? ==> r.attempts == attempts
    ensures attempts <= MaxReconnectAttempts ==> r.attempts <= MaxReconnectAttempts
  {
    if attempts < MaxReconnectAttempts then Retry(attempts + 1, Some(BaseDelayMs * (attempts + 1)))
    else Retry(attempts, None)
  }

  /** What the socket reports to the link: `onopen` or `onclose`. */
  datatype LinkEvent = OnOpened | OnClosed

  /** The counter at the end of a run of events, and the retry delays the
      run scheduled, in order. */
  datatype Trace = Trace(attempts: nat, delays: seq<nat>)

  function Run(attempts: nat, events: seq<LinkEvent>): Trace
    decreases |events|
  {
    if events == [] then Trace(attempts, [])
    else match events[0]
      case OnOpened => Run(0, events[1..])
      case OnClosed =>
        var r := CloseStep(attempts);
        var rest := Run(r.attempts, events[1..]);
        Trace(rest.attempts, (if r.delay.Some? then [r.delay.value] else []) + rest.delays)
  }

  /** Whatever happens, the counter stays within 0..5 and every delay is a
      multiple of two seconds between two and ten seconds. */
  lemma {:induction false} RunStaysBounded(attempts: nat, events: seq<LinkEvent>)
    requires attempts <= MaxReconnectAttempts
    decreases |events|
    ensures Run(attempts, events).attempts <= MaxReconnectAttempts
    ensures forall i | 0 <= i < |Run(attempts, events).delays| ::
      var d := Run(attempts, events).delays[i];
      d % BaseDelayMs == 0 && BaseDelayMs <= d <= MaxReconnectAttempts * BaseDelayMs
  {
    if events != [] {
      match events[0]
      case OnOpened =>
        RunStaysBounded(0, events[1..]);
      case OnClosed =>
        RunStaysBounded(CloseStep(attempts).attempts, events[1..]);
    }
  }

  function Closes(k: nat): (evs: seq<LinkEvent>)
    ensures |evs| == k && forall i | 0 <= i < k :: evs[i] == OnClosed
  {
    seq(k, _ => OnClosed)
  }

  /** Closes with no open in between, from counter `n`: the retries continue
      the linear schedule where it stood and stop once five have been made. */
  lemma {:induction false} ClosesFrom(n: nat, k: nat)
    requires n <= MaxReconnectAttempts
    decreases k
    ensures Run(n, Closes(k)).attempts == n + Min(k, MaxReconnectAttempts - n)
    ensures Run(n, Closes(k)).delays == seq(Min(k, MaxReconnectAttempts - n), i => BaseDelayMs * (n + i + 1))
  {
    if k > 0 {
      assert Closes(k)[1..] == Closes(k - 1);
      if n < MaxReconnectAttempts {
        ClosesFrom(n + 1, k - 1);
      } else {
        ClosesFrom(n, k - 1);
      }
    }
  }

  /** From a fresh or freshly opened link, the retries wait 2, 4, 6, 8 and 10
      seconds, 30 seconds in all, and then stop for good. */
  lemma BackoffSchedule(k: nat)
    requires k >= MaxReconnectAttempts
    ensures Run(0, Closes(k)).delays == [2000, 4000, 6000, 8000, 10000]
    ensures Run(0, Closes(k)).attempts == MaxReconnectAttempts
  {
    ClosesFrom(0, k);
  }

  /** An open restores the whole retry budget, however much was spent. */
  lemma OpenRestoresBudget(n: nat, k: nat)
    requires n <= MaxReconnectAttempts
    ensures Run(n, [OnOpened] + Closes(k)) == Run(0, Closes(k))
  {
    assert ([OnOpened] + Closes(k))[1..] == Closes(k);
  }

  class WsLink {
    /** `ws`: `None` before the first socket exists, else its `readyState` */
    var socket: Option<ReadyState>
    /** `wsReconnectAttempts` */
    var attempts: nat

    ghost predicate Valid()
      reads this
    {
      attempts <= MaxReconnectAttempts
    }

    constructor ()
      ensures Valid() && socket == None && attempts == 0
    {
      socket := None;
      attempts := 0;
    }

    /** `initWebSocket`: `created` is false when the WebSocket constructor
        throws, which leaves `ws` as it was and schedules nothing. */
    method Connect(created: bool)
      requires Valid()
      modifies this
      ensures Valid()
      ensures socket == (if created then Some(Connecting) else old(socket))
      ensures attempts == old(attempts)
    {
      if created {
        socket := Some(Connecting);
      }
    }

    /** `onopen` */
    method OnOpen()
      requires Valid()
      modifies this
      ensures Valid()
      ensures socket == Some(Open) && attempts == 0
    {
      socket := Some(Open);
      attempts := 0;
    }

    /** `onclose`; `retryIn` is the delay of the `initWebSocket` it schedules. */
    method OnClose() returns (retryIn: Option<nat>)
      requires Valid()
      modifies this
      ensures Valid()
      ensures socket == Some(Closed)
      ensures Retry(attempts, retryIn) == CloseStep(old(attempts))
    {
      socket := Some(Closed);
      retryIn := None;
      if attempts < MaxReconnectAttempts {
        attempts := attempts + 1;
        retryIn := Some(BaseDelayMs * attempts);
      }
    }

    /** `ws && ws.readyState === WebSocket.OPEN` */
    predicate IsOpen()
      reads this
    {
      socket == Some(Open)
    }
  }
}
