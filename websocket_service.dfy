/**
 * The websocket service: one transport to the annotation server, reconnected after a close
 * or an error up to ten times, with a counter reset whenever a socket opens.
 *
 * The platform socket is abstract: its URL and its ready state. Every socket the service has
 * created stays in `urls`/`states`, because its handlers stay attached after `connect`
 * replaces it; the service's own `websocket` field is the newest one. Platform events name
 * the socket they fire on by its index. The reconnect delay is a pending-timer count that
 * `ReconnectTimerFires` resolves.
 */
module Websocket {
  import opened RetryPolicy

  /** `WebSocket.readyState`. */
  datatype ReadyState = Connecting | Open | Closing | Closed

  const MaxReconnectAttempts: nat := 10

  /** The ready state after `close()` is requested on a socket in state `s`. */
  function AfterCloseRequest(s: ReadyState): (r: ReadyState)
    ensures s == Connecting || s == Open ==> r == Closing
    ensures s == Closing || s == Closed ==> r == s
  {
    if s == Connecting || s == Open then Closing else s
  }

  class WebsocketService<In, Out> {
    /** URL of each socket created so far, oldest first. */
    var urls: seq<string>
    /** Ready state of each socket created so far. */
    var states: seq<ReadyState>
    var reconnectAttempts: nat
    /** Reconnect timers scheduled and not yet fired. */
    var pendingReconnects: nat
    /** Payloads written to the transport, in order. */
    var outbox: seq<Out>
    /** Messages forwarded to subscribers, in arrival order. */
    var published: seq<In>

    ghost predicate Valid()
      reads this
    {
      && |urls| == |states|
      && reconnectAttempts <= MaxReconnectAttempts
      && (pendingReconnects > 0 ==> urls != [])
    }

    /** Whether `this.websocket` exists and is OPEN: the guard of `send`. */
    predicate IsOpen(): (r: bool)
      reads this
      requires Valid()
      ensures r ==> urls != [] && states != []
      ensures r ==> states[|states| - 1] != Connecting && states[|states| - 1] != Closing
      ensures r ==> states[|states| - 1] != Closed
      ensures states != [] && states[|states| - 1] == Open ==> r
    {
      states != [] && states[|states| - 1] == Open
    }

    constructor ()
      ensures Valid()
      ensures urls == [] && states == []
      ensures reconnectAttempts == 0 && pendingReconnects == 0
      ensures outbox == [] && published == []
    {
      urls, states := [], [];
      reconnectAttempts, pendingReconnects := 0, 0;
      outbox, published := [], [];
    }

    /** `connect(url)`: a new socket, CONNECTING, becomes `this.websocket`. */
    method Connect(url: string)
      requires Valid()
      modifies this`urls, this`states
      ensures Valid()
      ensures urls == old(urls) + [url]
      ensures states == old(states) + [Connecting]
    {
      urls := urls + [url];
      states := states + [Connecting];
    }

    /** `reconnect()`: below the cap, count one more attempt and schedule one timer. */
    method Reconnect()
      requires Valid()
      requires urls != []
      modifies this`reconnectAttempts, this`pendingReconnects
      ensures Valid()
      ensures reconnectAttempts == NextAttempts(old(reconnectAttempts), MaxReconnectAttempts)
      ensures pendingReconnects
              == old(pendingReconnects) + if Schedules(old(reconnectAttempts), MaxReconnectAttempts) then 1 else 0
    {
      if reconnectAttempts < MaxReconnectAttempts {
        reconnectAttempts := reconnectAttempts + 1;
        pendingReconnects := pendingReconnects + 1;
      }
    }

    /** The `onopen` handler of socket `i`, which the platform fires once it is OPEN. */
    method OnOpen(i: nat)
      requires Valid()
      requires i < |states| && states[i] == Connecting
      modifies this`states, this`reconnectAttempts
      ensures Valid()
      ensures states == old(states)[i := Open]
      ensures reconnectAttempts == 0
    {
      states := states[i := Open];
      reconnectAttempts := 0;
    }

    /** The `onclose` handler of socket `i`, which the platform fires once it is CLOSED. */
    method OnClose(i: nat)
      requires Valid()
      requires i < |states|
      modifies this`states, this`reconnectAttempts, this`pendingReconnects
      ensures Valid()
      ensures states == old(states)[i := Closed]
      ensures reconnectAttempts == NextAttempts(old(reconnectAttempts), MaxReconnectAttempts)
      ensures pendingReconnects
              == old(pendingReconnects) + if Schedules(old(reconnectAttempts), MaxReconnectAttempts) then 1 else 0
    {
      states := states[i := Closed];
      Reconnect();
    }

    /** The `onerror` handler of socket `i`: the same `reconnect()` as `onclose`. */
    method OnError(i: nat)
      requires Valid()
      requires i < |states|
      modifies this`reconnectAttempts, this`pendingReconnects
      ensures Valid()
      ensures reconnectAttempts == NextAttempts(old(reconnectAttempts), MaxReconnectAttempts)
      ensures pendingReconnects
              == old(pendingReconnects) + if Schedules(old(reconnectAttempts), MaxReconnectAttempts) then 1 else 0
    {
      Reconnect();
    }

    /** The `onmessage` handler of socket `i`: the parsed message goes to every subscriber. */
    method OnMessage(i: nat, message: In)
      requires Valid()
      requires i < |states| && states[i] == Open
      modifies this`published
      ensures Valid()
      ensures published == old(published) + [message]
    {
      published := published + [message];
    }

    /** A scheduled reconnect fires: `connect(this.websocket.url)`. */
    method ReconnectTimerFires()
      requires Valid()
      requires pendingReconnects > 0
      modifies this`urls, this`states, this`pendingReconnects
      ensures Valid()
      ensures old(urls) != []
      ensures urls == old(urls) + [old(urls)[|old(urls)| - 1]]
      ensures states == old(states) + [Connecting]
      ensures pendingReconnects == old(pendingReconnects) - 1
    {
      pendingReconnects := pendingReconnects - 1;
      Connect(urls[|urls| - 1]);
    }

    /** `send(data)`: written to the transport only while the current socket is OPEN. */
    method Send(data: Out)
      requires Valid()
      modifies this`outbox
      ensures Valid()
      ensures outbox == if IsOpen() then old(outbox) + [data] else old(outbox)
    {
      if states != [] && states[|states| - 1] == Open {
        outbox := outbox + [data];
      }
    }

    /** `disconnect()`: requests close of the current socket, if there is one. */
    method Disconnect()
      requires Valid()
      modifies this`states
      ensures Valid()
      ensures old(states) == [] ==> states == []
      ensures old(states) != [] ==>
                states == old(states)[|old(states)| - 1 := AfterCloseRequest(old(states)[|old(states)| - 1])]
    {
      if states != [] {
        var last := |states| - 1;
        states := states[last := AfterCloseRequest(states[last])];
      }
    }
  }

  /**
   * A failure that fires both `onerror` and `onclose` on an open socket uses two attempts
   * and schedules two reconnects, each to the same URL.
   */
  method CloseAfterErrorScenario(url: string)
  {
    var service := new WebsocketService<int, int>();
    service.Connect(url);
    service.OnOpen(0);
    service.OnError(0);
    service.OnClose(0);
    assert service.reconnectAttempts == 2 && service.pendingReconnects == 2;
    service.ReconnectTimerFires();
    service.ReconnectTimerFires();
    assert service.urls == [url, url, url];
    service.Send(7);
    assert service.outbox == [];
    service.OnOpen(2);
    assert service.reconnectAttempts == 0;
    service.Send(7);
    assert service.outbox == [7];
  }
}
