/**
 * The recorded behaviour of `WebsocketConnection`, call by call, as client
 * code of the class: each method builds a connection the way the test
 * fixture does (API key "123456", a listener registered straight away),
 * drives it, and returns what the collaborators observed.
 */
module WebsocketScenarios {
  import opened Wrappers
  import opened Connection
  import opened Websocket

  const ApiKey := "123456"
  const EventName := "my-event"
  const IncomingMessage := "{\"event\":\"my-event\",\"channel\":\"my-channel\",\"data\":{\"fish\":\"chips\"}}"
  const SocketId := "21112.816204"

  method NewConnection() returns (c: WebsocketConnection)
    ensures fresh(c) && c.Valid() && c.apiKey == ApiKey
    ensures c.Observe() == SetListenerStep(Init())
  {
    c := new WebsocketConnection(ApiKey);
    c.SetEventListener();
  }

  /** The fixture's `connect()` helper: connect, then receive `connection_established`. */
  method ConnectAndEstablish(c: WebsocketConnection)
    requires c.Valid()
    modifies c
    ensures c.Valid() && c.Observe() == ReceiveStep(ConnectStep(old(c.Observe())), Established(SocketId))
  {
    c.Connect();
    c.OnMessage(Established(SocketId));
  }

  method StartsInDisconnectedState() returns (s: ConnectionState)
    ensures s == Disconnected
  {
    var c := NewConnection();
    s := c.GetState();
  }

  method ConnectCallIsDelegated() returns (transportConnects: nat)
    ensures transportConnects == 1
  {
    var c := NewConnection();
    c.Connect();
    transportConnects := c.transportConnects;
  }

  method ConnectUpdatesStateAndNotifies() returns (changes: seq<StateChange>, s: ConnectionState)
    ensures changes == [StateChange(Disconnected, Connecting)]
    ensures s == Connecting
  {
    var c := NewConnection();
    c.Connect();
    changes := c.stateChanges;
    s := c.GetState();
  }

  method ConnectTwiceConnectsOnce() returns (transportConnects: nat, changes: seq<StateChange>)
    ensures transportConnects == 1 && |changes| == 1
  {
    var c := NewConnection();
    c.Connect();
    c.Connect();
    transportConnects, changes := c.transportConnects, c.stateChanges;
  }

  method EstablishedMessageConnects() returns (changes: seq<StateChange>, s: ConnectionState)
    ensures changes == [StateChange(Disconnected, Connecting), StateChange(Connecting, Connected)]
    ensures s == Connected
  {
    var c := NewConnection();
    c.Connect();
    c.OnMessage(Established(SocketId));
    changes := c.stateChanges;
    s := c.GetState();
  }

  method EstablishedTwiceNotifiesTwice() returns (changes: seq<StateChange>)
    ensures |changes| == 2
  {
    var c := NewConnection();
    c.Connect();
    c.OnMessage(Established(SocketId));
    c.OnMessage(Established(SocketId));
    changes := c.stateChanges;
  }

  method ErrorMessageRaisesError() returns (errors: seq<ErrorEvent>)
    ensures errors == [ErrorEvent("Could not find app by key 12345", Some("4001"), None)]
  {
    var c := NewConnection();
    c.Connect();
    c.OnMessage(ProtoError(Some(4001), "Could not find app by key 12345"));
    errors := c.errors;
    assert Decimal.IntToDecimal(4001) == "4001";
  }

  method SendWhenConnectedReachesTransport() returns (sent: seq<string>)
    ensures sent == ["message"]
  {
    var c := NewConnection();
    ConnectAndEstablish(c);
    c.SendMessage("message", None);
    sent := c.sent;
  }

  method SendWhenDisconnectedRaisesError() returns (sent: seq<string>, errors: seq<ErrorEvent>)
    ensures sent == []
    ensures errors == [ErrorEvent("Cannot send a message while in DISCONNECTED state", None, None)]
  {
    var c := NewConnection();
    c.SendMessage("message", None);
    sent, errors := c.sent, c.errors;
    assert SendRejectedMessage(Disconnected) == "Cannot send a message while in DISCONNECTED state";
  }

  method SendWhenTransportThrowsRaisesError(e: Cause) returns (errors: seq<ErrorEvent>)
    ensures errors == [ErrorEvent("An exception occurred while sending message [message]", None, Some(e))]
  {
    var c := NewConnection();
    ConnectAndEstablish(c);
    c.SendMessage("message", Some(e));
    errors := c.errors;
    assert SendFailedMessage("message") == "An exception occurred while sending message [message]";
  }

  method UserMessageReachesRouter() returns (routed: seq<Delivery>, s: ConnectionState)
    ensures routed == [Delivery(EventName, IncomingMessage)]
    ensures s == Connected
  {
    var c := NewConnection();
    ConnectAndEstablish(c);
    c.OnMessage(App(EventName, IncomingMessage));
    routed := c.routed;
    s := c.GetState();
  }

  method OnCloseDisconnects() returns (changes: seq<StateChange>, errors: seq<ErrorEvent>)
    ensures changes == [StateChange(Disconnected, Connecting), StateChange(Connecting, Disconnected)]
    ensures errors == []
  {
    var c := NewConnection();
    c.Connect();
    c.OnClose(1, "reason", true);
    changes, errors := c.stateChanges, c.errors;
  }

  method OnErrorDisconnectsAndRaisesError(e: Cause) returns (changes: seq<StateChange>, errors: seq<ErrorEvent>)
    ensures changes == [StateChange(Disconnected, Connecting), StateChange(Connecting, Disconnected)]
    ensures errors == [ErrorEvent("An exception was thrown by the websocket", None, Some(e))]
  {
    var c := NewConnection();
    c.Connect();
    c.OnError(e);
    changes, errors := c.stateChanges, c.errors;
  }
}
