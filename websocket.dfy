/**
 * websocket/RecipeWebSocketClient.kt as a class: the fields the Kotlin class
 * mutates, plus the effects it has on the outside world (sockets requested,
 * `close` calls, `onRecipeAdded` calls, runnables posted to the `Handler`)
 * as fields that only grow. Every method performs, on the fields, the
 * transition of the same name in module Reconnect.
 */
module WebSocket {
  import opened Wrappers
  import opened Entities
  import R = Reconnect

  class RecipeWebSocketClient {
    /** Gson's `fromJson(text, Recipe::class.java)`; `None` where it throws or yields null. */
    const parse: string -> Option<Recipe>

    var webSocket: Option<R.SocketId>
    var wsUrl: Option<string>
    var retryCount: int
    var isManualDisconnect: bool
    /** Delays of the runnables waiting in the `Handler` queue. */
    var pending: seq<int>
    var requests: seq<string>
    var closes: seq<R.CloseCall>
    var delivered: seq<Recipe>
    var posted: seq<int>

    function Model(): R.Client
      reads this
    {
      R.Client(webSocket, wsUrl, retryCount, isManualDisconnect, pending, requests, closes, delivered, posted)
    }

    predicate Valid()
      reads this
    {
      R.Inv(Model())
    }

    constructor (parse: string -> Option<Recipe>)
      ensures Valid() && Model() == R.Init() && this.parse == parse
    {
      this.parse := parse;
      webSocket := None;
      wsUrl := None;
      retryCount := 0;
      isManualDisconnect := false;
      pending := [];
      requests := [];
      closes := [];
      delivered := [];
      posted := [];
    }

    method Connect(url: string)
      requires Valid()
      modifies this
      ensures Valid() && Model() == R.Connect(old(Model()), url)
      ensures wsUrl == Some(url) && !isManualDisconnect && retryCount == old(retryCount)
      ensures requests == old(requests) + [url]
    {
      wsUrl := Some(url);
      isManualDisconnect := false;
      AttemptConnection();
    }

    method AttemptConnection()
      requires Valid()
      modifies this
      ensures Valid() && Model() == R.Attempt(old(Model()))
      ensures old(wsUrl).None? ==> Model() == old(Model())
    {
      if wsUrl.None? {
        return;
      }
      var url := wsUrl.value;
      webSocket := Some(|requests|);
      requests := requests + [url];
    }

    method OnOpen()
      requires Valid()
      modifies this
      ensures Valid() && Model() == R.Open(old(Model()))
      ensures retryCount == 0
    {
      retryCount := 0;
    }

    method OnMessage(text: string)
      requires Valid()
      modifies this
      ensures Valid() && Model() == R.Message(old(Model()), parse, text)
      ensures parse(text).Some? ==> delivered == old(delivered) + [parse(text).value]
      ensures parse(text).None? ==> Model() == old(Model())
    {
      var recipe := parse(text);
      if recipe.Some? {
        delivered := delivered + [recipe.value];
      }
    }

    method OnClosing(s: R.SocketId)
      requires Valid()
      modifies this
      ensures Valid() && Model() == R.Closing(old(Model()), s)
    {
      closes := closes + [R.CloseCall(s, R.NormalClosure, None)];
    }

    method OnClosed()
      requires Valid()
      modifies this
      ensures Valid() && Model() == R.LostConnection(old(Model()))
      ensures old(isManualDisconnect) ==> Model() == old(Model())
    {
      R.ScheduleInv(Model());
      if !isManualDisconnect {
        ScheduleReconnect();
      }
    }

    method OnFailure()
      requires Valid()
      modifies this
      ensures Valid() && Model() == R.LostConnection(old(Model()))
      ensures old(isManualDisconnect) ==> Model() == old(Model())
    {
      R.ScheduleInv(Model());
      if !isManualDisconnect {
        ScheduleReconnect();
      }
    }

    method ScheduleReconnect()
      requires Valid() && !isManualDisconnect
      modifies this
      ensures Valid() && Model() == R.Schedule(old(Model()))
      ensures old(retryCount) >= R.MaxRetries ==> Model() == old(Model())
      ensures retryCount <= R.MaxRetries
    {
      R.ScheduleInv(Model());
      if retryCount >= R.MaxRetries {
        return;
      }
      retryCount := retryCount + 1;
      var delayMs := R.ReconnectDelay(retryCount);
      pending := pending + [delayMs];
      posted := posted + [delayMs];
    }

    /** The runnable at position `i` of the queue runs. */
    method TimerFires(i: nat)
      requires Valid() && i < |pending|
      modifies this
      ensures Valid() && Model() == R.TimerFires(old(Model()), i)
    {
      R.StepInv(Model(), parse, R.Fire(i));
      pending := pending[..i] + pending[i + 1..];
      AttemptConnection();
    }

    method Disconnect()
      requires Valid()
      modifies this
      ensures Valid() && Model() == R.Disconnect(old(Model()))
      ensures isManualDisconnect && pending == [] && webSocket == None
    {
      isManualDisconnect := true;
      pending := [];
      if webSocket.Some? {
        closes := closes + [R.CloseCall(webSocket.value, R.NormalClosure, Some("App closed"))];
      }
      webSocket := None;
    }
  }
}
