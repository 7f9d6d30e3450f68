/**
 * The reconnect/backoff state machine of websocket/RecipeWebSocketClient.kt,
 * as a value. Each listener callback, each public call and the firing of a
 * posted timer is one atomic transition on `Client`; the class in module
 * WebSocket performs the same transitions on its fields.
 *
 * The OkHttp socket is an abstract handle: the `n`-th call of
 * `newWebSocket` creates socket `n`, and `requests[n]` is the URL it was
 * asked for. Gson is the partial function `parse`. The `Handler` queue is
 * `pending`, the delays of the runnables posted and not yet run; `posted`
 * records every delay ever posted, `closes` every `close` call and
 * `delivered` every call of `onRecipeAdded`.
 */
module Reconnect {
  import opened Wrappers
  import opened Entities

  const MaxRetries := 5
  const BaseDelayMs := 1000
  const MaxDelayMs := 10000
  /** The normal-closure status code of RFC 6455, section 7.4.1. */
  const NormalClosure := 1000

  type SocketId = nat

  datatype CloseCall = CloseCall(socket: SocketId, code: int, reason: Option<string>)

  datatype Client = Client(
    webSocket: Option<SocketId>,
    wsUrl: Option<string>,
    retryCount: int,
    isManualDisconnect: bool,
    pending: seq<int>,
    requests: seq<string>,
    closes: seq<CloseCall>,
    delivered: seq<Recipe>,
    posted: seq<int>)

  /** The freshly constructed client. */
  function Init(): Client {
    Client(None, None, 0, false, [], [], [], [], [])
  }

  /** What every reachable state satisfies. */
  predicate Inv(c: Client) {
    && 0 <= c.retryCount <= MaxRetries
    && (forall i :: 0 <= i < |c.pending| ==> BaseDelayMs <= c.pending[i] <= MaxRetries * BaseDelayMs)
    && (c.webSocket.Some? ==> c.webSocket.value < |c.requests|)
    && (c.isManualDisconnect ==> c.pending == [])
  }

  /** `(1000L * attempt).coerceAtMost(10000L)`. */
  function ReconnectDelay(attempt: int): int {
    if BaseDelayMs * attempt > MaxDelayMs then MaxDelayMs else BaseDelayMs * attempt
  }

  /** `attemptConnection`: without a stored URL it returns at once. */
  function Attempt(c: Client): Client {
    match c.wsUrl
    case None => c
    case Some(url) => c.(webSocket := Some(|c.requests|), requests := c.requests + [url])
  }

  /** `connect(url)`. */
  function Connect(c: Client, url: string): Client {
    Attempt(c.(wsUrl := Some(url), isManualDisconnect := false))
  }

  /** `onOpen`. */
  function Open(c: Client): Client {
    c.(retryCount := 0)
  }

  /** `onMessage`: a frame that Gson maps to a recipe is handed to `onRecipeAdded`. */
  function Message(c: Client, parse: string -> Option<Recipe>, text: string): Client {
    match parse(text)
    case Some(r) => c.(delivered := c.delivered + [r])
    case None => c
  }

  /** `onClosing`: the closing socket is closed with code 1000 and no reason. */
  function Closing(c: Client, s: SocketId): Client {
    c.(closes := c.closes + [CloseCall(s, NormalClosure, None)])
  }

  /** `scheduleReconnect`: the give-up test comes before the increment. */
  function Schedule(c: Client): Client {
    if c.retryCount >= MaxRetries then c
    else
      var n := c.retryCount + 1;
      c.(retryCount := n,
         pending := c.pending + [ReconnectDelay(n)],
         posted := c.posted + [ReconnectDelay(n)])
  }

  /** `onClosed` and `onFailure`, which do the same thing. */
  function LostConnection(c: Client): Client {
    if !c.isManualDisconnect then Schedule(c) else c
  }

  /** The `i`-th posted runnable runs: it leaves the queue and calls `attemptConnection`. */
  function TimerFires(c: Client, i: nat): Client
    requires i < |c.pending|
  {
    Attempt(c.(pending := c.pending[..i] + c.pending[i + 1..]))
  }

  /** `disconnect`. */
  function Disconnect(c: Client): Client {
    var closes := match c.webSocket
      case Some(s) => c.closes + [CloseCall(s, NormalClosure, Some("App closed"))]
      case None => c.closes;
    c.(isManualDisconnect := true, pending := [], closes := closes, webSocket := None)
  }

  /** The events the client reacts to, one per callback or call. */
  datatype Event =
    | ConnectTo(url: string)
    | Opened
    | Received(text: string)
    | ClosingFrom(socket: SocketId)
    | Closed
    | Failed
    | Fire(index: nat)
    | Stop

  /** One event. A timer that is not in the queue cannot fire, so `Fire` of a missing index changes nothing. */
  function Step(c: Client, parse: string -> Option<Recipe>, e: Event): Client {
    match e
    case ConnectTo(url) => Connect(c, url)
    case Opened => Open(c)
    case Received(text) => Message(c, parse, text)
    case ClosingFrom(s) => Closing(c, s)
    case Closed => LostConnection(c)
    case Failed => LostConnection(c)
    case Fire(i) => if i < |c.pending| then TimerFires(c, i) else c
    case Stop => Disconnect(c)
  }

  function Run(c: Client, parse: string -> Option<Recipe>, es: seq<Event>): Client
    decreases |es|
  {
    if es == [] then c else Run(Step(c, parse, es[0]), parse, es[1..])
  }

  /** The delays posted by the attempts numbered `k + 1` up to `n`. */
  function Ramp(k: int, n: int): seq<int>
    requires k <= n
    decreases n - k
  {
    if k == n then [] else [ReconnectDelay(k + 1)] + Ramp(k + 1, n)
  }

  // ---------------------------------------------------------------- invariant

  lemma InitInv()
    ensures Inv(Init())
  {
  }

  lemma {:induction false} StepInv(c: Client, parse: string -> Option<Recipe>, e: Event)
    requires Inv(c)
    ensures Inv(Step(c, parse, e))
  {
    match e
    case Fire(i) =>
      if i < |c.pending| {
        var q := c.pending[..i] + c.pending[i + 1..];
        forall k | 0 <= k < |q| ensures BaseDelayMs <= q[k] <= MaxRetries * BaseDelayMs {
          if k < i { assert q[k] == c.pending[k]; } else { assert q[k] == c.pending[k + 1]; }
        }
      }
    case Closed => ScheduleInv(c);
    case Failed => ScheduleInv(c);
    case _ =>
  }

  lemma {:induction false} ScheduleInv(c: Client)
    requires Inv(c)
    ensures Inv(LostConnection(c))
  {
    if !c.isManualDisconnect && c.retryCount < MaxRetries {
      var d := Schedule(c);
      forall k | 0 <= k < |d.pending| ensures BaseDelayMs <= d.pending[k] <= MaxRetries * BaseDelayMs {
        if k < |c.pending| { assert d.pending[k] == c.pending[k]; }
      }
    }
  }

  lemma {:induction false} RunInv(c: Client, parse: string -> Option<Recipe>, es: seq<Event>)
    requires Inv(c)
    ensures Inv(Run(c, parse, es))
    decreases |es|
  {
    if es != [] {
      StepInv(c, parse, es[0]);
      RunInv(Step(c, parse, es[0]), parse, es[1..]);
    }
  }

  /** Every state reachable from a fresh client keeps the retry counter within 0..5. */
  lemma ReachableRetriesBounded(parse: string -> Option<Recipe>, es: seq<Event>)
    ensures 0 <= Run(Init(), parse, es).retryCount <= MaxRetries
  {
    RunInv(Init(), parse, es);
  }

  // ---------------------------------------------------------------- single events

  /** `connect` stores the URL, clears the manual flag, keeps the retry counter and opens exactly one socket for that URL. */
  lemma ConnectStartsOneAttempt(c: Client, url: string)
    ensures var d := Connect(c, url);
      && d.wsUrl == Some(url) && !d.isManualDisconnect && d.retryCount == c.retryCount
      && d.requests == c.requests + [url] && d.webSocket == Some(|c.requests|)
      && d.pending == c.pending && d.posted == c.posted && d.closes == c.closes && d.delivered == c.delivered
  {
  }

  /** An attempt without a stored URL changes nothing and creates no socket. */
  lemma AttemptWithoutUrl(c: Client)
    requires c.wsUrl.None?
    ensures Attempt(c) == c
  {
  }

  /** `onOpen` resets the counter and changes nothing else. */
  lemma OpenOnlyResets(c: Client)
    ensures Open(c).retryCount == 0 && Open(c).(retryCount := c.retryCount) == c
  {
  }

  /** A close or failure schedules exactly when the disconnect was not manual and fewer than five retries were made. */
  lemma LostConnectionSchedules(c: Client)
    requires Inv(c)
    ensures var d := LostConnection(c);
      && (d.pending != c.pending <==> !c.isManualDisconnect && c.retryCount < MaxRetries)
      && (c.isManualDisconnect ==> d == c)
  {
  }

  /** After five retries `scheduleReconnect` gives up and leaves the whole state as it was. */
  lemma GiveUpChangesNothing(c: Client)
    requires c.retryCount >= MaxRetries
    ensures Schedule(c) == c
  {
  }

  /** Below the limit the counter grows by one and exactly one timer is queued, with delay 1000 ms times the new count, never capped. */
  lemma ScheduleQueuesOne(c: Client)
    requires Inv(c) && c.retryCount < MaxRetries
    ensures var d := Schedule(c);
      && d.retryCount == c.retryCount + 1
      && d.pending == c.pending + [BaseDelayMs * d.retryCount]
      && d.posted == c.posted + [BaseDelayMs * d.retryCount]
      && BaseDelayMs * d.retryCount < MaxDelayMs
      && d.(retryCount := c.retryCount, pending := c.pending, posted := c.posted) == c
  {
  }

  /** After a successful open the next loss of connection waits 1000 ms. */
  lemma OpenRestartsBackoff(c: Client)
    requires !c.isManualDisconnect
    ensures LostConnection(Open(c)).pending == c.pending + [BaseDelayMs]
  {
  }

  /** A frame that parses is delivered exactly once; one that does not changes nothing. */
  lemma MessageDeliversOnce(c: Client, parse: string -> Option<Recipe>, text: string)
    ensures var d := Message(c, parse, text);
      && (parse(text).Some? ==> d.delivered == c.delivered + [parse(text).value] && d.(delivered := c.delivered) == c)
      && (parse(text).None? ==> d == c)
  {
  }

  /** Delivery is not guarded by the manual flag: a frame arriving after `disconnect` is still handed on. */
  lemma MessageAfterDisconnect(c: Client, parse: string -> Option<Recipe>, text: string, r: Recipe)
    requires parse(text) == Some(r)
    ensures Message(Disconnect(c), parse, text).delivered == c.delivered + [r]
  {
  }

  /** A firing timer reconnects to the URL stored by the last `connect`. */
  lemma TimerReusesUrl(c: Client, i: nat, url: string)
    requires i < |c.pending| && c.wsUrl == Some(url)
    ensures var d := TimerFires(c, i);
      && d.requests == c.requests + [url] && d.webSocket == Some(|c.requests|)
      && |d.pending| == |c.pending| - 1 && d.retryCount == c.retryCount
  {
  }

  /** `disconnect` sets the flag, drops every pending timer, closes the current socket with "App closed" and forgets it. */
  lemma DisconnectEffect(c: Client)
    ensures var d := Disconnect(c);
      && d.isManualDisconnect && d.pending == [] && d.webSocket == None
      && d.closes == c.closes + (if c.webSocket.Some? then [CloseCall(c.webSocket.value, NormalClosure, Some("App closed"))] else [])
      && d.requests == c.requests && d.retryCount == c.retryCount && d.wsUrl == c.wsUrl
  {
  }

  lemma DisconnectIdempotent(c: Client)
    ensures Disconnect(Disconnect(c)) == Disconnect(c)
  {
  }

  /** `disconnect` on a fresh client closes nothing, and a later `connect` behaves as on a fresh client. */
  lemma DisconnectBeforeConnect(url: string)
    ensures Disconnect(Init()) == Init().(isManualDisconnect := true)
    ensures Connect(Disconnect(Init()), url) == Connect(Init(), url)
  {
  }

  // ---------------------------------------------------------------- runs

  lemma {:induction false} RampFirstFive()
    ensures Ramp(0, MaxRetries) == [1000, 2000, 3000, 4000, 5000]
  {
    assert Ramp(5, 5) == [];
    assert Ramp(4, 5) == [5000];
    assert Ramp(3, 5) == [4000, 5000];
    assert Ramp(2, 5) == [3000, 4000, 5000];
    assert Ramp(1, 5) == [2000, 3000, 4000, 5000];
  }

  lemma {:induction false} RampAppend(k: int, m: int, n: int)
    requires k <= m <= n
    ensures Ramp(k, m) + Ramp(m, n) == Ramp(k, n)
    decreases m - k
  {
    if k < m {
      RampAppend(k + 1, m, n);
      var d := [ReconnectDelay(k + 1)];
      assert Ramp(k, m) == d + Ramp(k + 1, m);
      assert Ramp(k, n) == d + Ramp(k + 1, n);
      assert (d + Ramp(k + 1, m)) + Ramp(m, n) == d + (Ramp(k + 1, m) + Ramp(m, n));
    }
  }

  /** One event other than an open either leaves counter and delays alone or makes the next retry. */
  lemma StepBackoff(c: Client, parse: string -> Option<Recipe>, e: Event)
    requires Inv(c) && !e.Opened?
    ensures var d := Step(c, parse, e);
      || (d.retryCount == c.retryCount && d.posted == c.posted)
      || (d.retryCount == c.retryCount + 1 && d.posted == c.posted + [ReconnectDelay(d.retryCount)])
  {
  }

  /**
   * Without an open in between, the delays posted are the next steps of the
   * ramp from the current counter: from 0 exactly 1000, 2000, 3000, 4000,
   * 5000 ms, in this order, and never a sixth.
   */
  lemma {:induction false} BackoffRamp(c: Client, parse: string -> Option<Recipe>, es: seq<Event>)
    requires Inv(c)
    requires forall i :: 0 <= i < |es| ==> !es[i].Opened?
    ensures var d := Run(c, parse, es);
      && c.retryCount <= d.retryCount <= MaxRetries
      && d.posted == c.posted + Ramp(c.retryCount, d.retryCount)
    decreases |es|
  {
    if es != [] {
      assert !es[0].Opened?;
      var c' := Step(c, parse, es[0]);
      StepBackoff(c, parse, es[0]);
      StepInv(c, parse, es[0]);
      assert forall i :: 0 <= i < |es[1..]| ==> es[1..][i] == es[i + 1];
      BackoffRamp(c', parse, es[1..]);
      var d := Run(c', parse, es[1..]);
      assert Run(c, parse, es) == d;
      RampChain(c.posted, c.retryCount, c'.posted, c'.retryCount, d.posted, d.retryCount);
    }
  }

  /** One step that posts nothing or the next delay, followed by a ramp, is a ramp. */
  lemma RampChain(p0: seq<int>, k0: int, p1: seq<int>, k1: int, p2: seq<int>, k2: int)
    requires (k1 == k0 && p1 == p0) || (k1 == k0 + 1 && p1 == p0 + [ReconnectDelay(k1)])
    requires k1 <= k2 && p2 == p1 + Ramp(k1, k2)
    ensures p2 == p0 + Ramp(k0, k2)
  {
    if k1 == k0 + 1 {
      assert Ramp(k0, k2) == [ReconnectDelay(k1)] + Ramp(k1, k2);
      assert p2 == p0 + ([ReconnectDelay(k1)] + Ramp(k1, k2));
    }
  }

  lemma {:induction false} BackoffFromZero(c: Client, parse: string -> Option<Recipe>, es: seq<Event>)
    requires Inv(c) && c.retryCount == 0
    requires forall i :: 0 <= i < |es| ==> !es[i].Opened?
    ensures var posted := Run(c, parse, es).posted;
      && |c.posted| <= |posted| <= |c.posted| + MaxRetries
      && posted[|c.posted|..] == [1000, 2000, 3000, 4000, 5000][..|posted| - |c.posted|]
  {
    BackoffRamp(c, parse, es);
    var n := Run(c, parse, es).retryCount;
    RampFirstFive();
    RampAppend(0, n, MaxRetries);
    assert Ramp(0, n) == Ramp(0, MaxRetries)[..n];
  }

  /**
   * After `disconnect`, as long as no `connect` comes, no timer is posted,
   * no socket is created and the timer queue stays empty.
   */
  lemma {:induction false} StaysDisconnected(c: Client, parse: string -> Option<Recipe>, es: seq<Event>)
    requires c.isManualDisconnect && c.pending == []
    requires forall i :: 0 <= i < |es| ==> !es[i].ConnectTo?
    ensures var d := Run(c, parse, es);
      && d.isManualDisconnect && d.pending == [] && d.posted == c.posted && d.requests == c.requests
    decreases |es|
  {
    if es != [] {
      StaysDisconnected(Step(c, parse, es[0]), parse, es[1..]);
    }
  }

  lemma AfterDisconnectNoReconnect(c: Client, parse: string -> Option<Recipe>, es: seq<Event>)
    requires forall i :: 0 <= i < |es| ==> !es[i].ConnectTo?
    ensures var d := Run(Disconnect(c), parse, es);
      && d.pending == [] && d.posted == c.posted && d.requests == c.requests
  {
    StaysDisconnected(Disconnect(c), parse, es);
  }
}
