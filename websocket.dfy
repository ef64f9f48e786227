/**
 * The websocket connection of the Pusher client: a three-state lifecycle
 * driven by `connect()` from the caller and by the transport's
 * message, close and error callbacks, with `sendMessage` as the outbound path.
 *
 * Everything the connection does is visible only through its collaborators,
 * so the model's state is what they have observed: the listener's
 * state-change and error notifications, the transport's `connect` calls and
 * `send` payloads, and the router's deliveries. Events are dispatched
 * synchronously, one call at a time.
 */
module Websocket {
  import opened Wrappers
  import opened Connection
  import opened Decimal

  /** An inbound frame, already decoded from its JSON envelope. */
  datatype Frame =
    | Established(socketId: string)                // pusher:connection_established
    | ProtoError(code: Option<int>, message: string) // pusher:error
    | App(event: string, raw: string)               // any other event, with the frame's raw text

  /** One call of the router's `onMessage(eventName, rawFrame)`. */
  datatype Delivery = Delivery(event: string, raw: string)

  /** One call into the connection, by the client or by the transport. */
  datatype Input =
    | SetListener
    | Connect
    | Receive(frame: Frame)
    | Send(payload: string, failure: Option<Cause>)  // failure: what the transport's send throws, if anything
    | Close(code: int, reason: string, remote: bool)
    | TransportError(cause: Cause)

  /** The connection's state together with everything its collaborators have seen. */
  datatype Observation = Observation(
    state: ConnectionState,
    listening: bool,
    stateChanges: seq<StateChange>,
    errors: seq<ErrorEvent>,
    transportConnects: nat,
    sent: seq<string>,
    routed: seq<Delivery>)

  const WebsocketErrorMessage := "An exception was thrown by the websocket"
  const SendFailedPrefix := "An exception occurred while sending message ["

  function SendRejectedMessage(s: ConnectionState): string
  {
    "Cannot send a message while in " + StateName(s) + " state"
  }

  function SendFailedMessage(payload: string): string
  {
    SendFailedPrefix + payload + "]"
  }

  /** A numeric error code reaches the listener as its decimal text; an absent code stays absent. */
  function RenderCode(code: Option<int>): Option<string>
  {
    match code
    case None => None
    case Some(c) => Some(IntToDecimal(c))
  }

  // ---------------------------------------------------------------------------
  // One step per input

  function Init(): Observation
  {
    Observation(Disconnected, false, [], [], 0, [], [])
  }

  /** The registered listener hears a notification; with none registered it is dropped. */
  function Notify(o: Observation, change: StateChange): Observation
  {
    if o.listening then o.(stateChanges := o.stateChanges + [change]) else o
  }

  function RaiseError(o: Observation, e: ErrorEvent): Observation
  {
    if o.listening then o.(errors := o.errors + [e]) else o
  }

  /** Moves to `next`, notifying once if and only if the state actually changes. */
  function Transition(o: Observation, next: ConnectionState): Observation
  {
    if o.state == next then o else Notify(o.(state := next), StateChange(o.state, next))
  }

  function SetListenerStep(o: Observation): Observation
  {
    o.(listening := true)
  }

  function ConnectStep(o: Observation): Observation
  {
    if o.state == Disconnected
    then Transition(o.(transportConnects := o.transportConnects + 1), Connecting)
    else o
  }

  function ReceiveStep(o: Observation, f: Frame): Observation
  {
    match f
    case Established(_) => if o.state == Connecting then Transition(o, Connected) else o
    case ProtoError(code, message) => RaiseError(o, ErrorEvent(message, RenderCode(code), None))
    case App(event, raw) => o.(routed := o.routed + [Delivery(event, raw)])
  }

  function SendStep(o: Observation, payload: string, failure: Option<Cause>): Observation
  {
    if o.state != Connected then
      RaiseError(o, ErrorEvent(SendRejectedMessage(o.state), None, None))
    else
      var o' := o.(sent := o.sent + [payload]);
      match failure
      case None => o'
      case Some(e) => RaiseError(o', ErrorEvent(SendFailedMessage(payload), None, Some(e)))
  }

  function CloseStep(o: Observation): Observation
  {
    Transition(o, Disconnected)
  }

  function TransportErrorStep(o: Observation, cause: Cause): Observation
  {
    RaiseError(Transition(o, Disconnected), ErrorEvent(WebsocketErrorMessage, None, Some(cause)))
  }

  function Apply(o: Observation, i: Input): Observation
  {
    match i
    case SetListener => SetListenerStep(o)
    case Connect => ConnectStep(o)
    case Receive(f) => ReceiveStep(o, f)
    case Send(p, failure) => SendStep(o, p, failure)
    case Close(_, _, _) => CloseStep(o)
    case TransportError(e) => TransportErrorStep(o, e)
  }

  function Run(o: Observation, ins: seq<Input>): Observation
    decreases |ins|
  {
    if ins == [] then o else Run(Apply(o, ins[0]), ins[1..])
  }

  /** The same input, `n` times in a row. */
  function Repeat(i: Input, n: nat): seq<Input>
  {
    if n == 0 then [] else [i] + Repeat(i, n - 1)
  }

  // ---------------------------------------------------------------------------
  // What each call does, state by state

  /** `connect()` from DISCONNECTED opens the transport once, moves to CONNECTING and notifies once. */
  lemma ConnectFromDisconnected(o: Observation)
    requires o.state == Disconnected && o.listening
    ensures var r := ConnectStep(o);
      r.state == Connecting &&
      r.transportConnects == o.transportConnects + 1 &&
      r.stateChanges == o.stateChanges + [StateChange(Disconnected, Connecting)] &&
      r.errors == o.errors && r.sent == o.sent && r.routed == o.routed
  {
  }

  /** `connect()` while CONNECTING or CONNECTED touches neither the transport nor the listener. */
  lemma ConnectWhileLiveIsIgnored(o: Observation)
    requires o.state != Disconnected
    ensures ConnectStep(o) == o
  {
  }

  /** Any number of consecutive `connect()` calls act exactly like the first one. */
  lemma {:induction false} RepeatedConnect(o: Observation, n: nat)
    requires n >= 1
    ensures Run(o, Repeat(Connect, n)) == ConnectStep(o)
  {
    var ins := Repeat(Connect, n);
    assert ins[0] == Connect && ins[1..] == Repeat(Connect, n - 1);
    ConnectsIdleWhileLive(ConnectStep(o), n - 1);
  }

  lemma {:induction false} ConnectsIdleWhileLive(o: Observation, n: nat)
    requires o.state != Disconnected
    ensures Run(o, Repeat(Connect, n)) == o
    decreases n
  {
    if n > 0 {
      var ins := Repeat(Connect, n);
      assert ins[0] == Connect && ins[1..] == Repeat(Connect, n - 1);
      ConnectsIdleWhileLive(o, n - 1);
    }
  }

  /** `connection_established` while CONNECTING moves to CONNECTED with one notification. */
  lemma EstablishedWhileConnecting(o: Observation, socketId: string)
    requires o.state == Connecting && o.listening
    ensures ReceiveStep(o, Established(socketId)) ==
      o.(state := Connected, stateChanges := o.stateChanges + [StateChange(Connecting, Connected)])
  {
  }

  /** A repeated `connection_established` while CONNECTED changes nothing and notifies no one. */
  lemma EstablishedWhileConnectedIsIgnored(o: Observation, socketId: string)
    requires o.state == Connected
    ensures ReceiveStep(o, Established(socketId)) == o
  {
  }

  /**
   * A `pusher:error` frame raises one error carrying the frame's message, the
   * code as decimal text that parses back to the same number (or no code),
   * and no cause; the state and every other log are untouched.
   */
  lemma ErrorFrameRaisesError(o: Observation, code: Option<int>, message: string)
    requires o.listening
    ensures var r := ReceiveStep(o, ProtoError(code, message));
      r.errors == o.errors + [ErrorEvent(message, RenderCode(code), None)] &&
      r == o.(errors := r.errors)
    ensures var e := ReceiveStep(o, ProtoError(code, message)).errors[|o.errors|];
      (code.None? <==> e.code.None?) &&
      (code.Some? ==> ParseDecimal(e.code.value) == code)
  {
    if code.Some? {
      IntToDecimalRoundTrip(code.value);
    }
  }

  /** While CONNECTED a payload reaches the transport verbatim. */
  lemma SendWhileConnected(o: Observation, payload: string)
    requires o.state == Connected
    ensures SendStep(o, payload, None) == o.(sent := o.sent + [payload])
  {
  }

  /** While not CONNECTED the transport is not touched and one error names the state. */
  lemma SendWhileNotConnected(o: Observation, payload: string, failure: Option<Cause>)
    requires o.state != Connected && o.listening
    ensures var r := SendStep(o, payload, failure);
      r.sent == o.sent &&
      r == o.(errors := o.errors + [ErrorEvent(SendRejectedMessage(o.state), None, None)])
  {
  }

  /** A send the transport throws on raises one error naming the payload and carrying the exception. */
  lemma SendWhenTransportThrows(o: Observation, payload: string, e: Cause)
    requires o.state == Connected && o.listening
    ensures SendStep(o, payload, Some(e)) ==
      o.(sent := o.sent + [payload],
         errors := o.errors + [ErrorEvent(SendFailedMessage(payload), None, Some(e))])
  {
  }

  /** The rejection message determines the state it names. */
  lemma SendRejectedMessageNamesState(s: ConnectionState, t: ConnectionState)
    ensures SendRejectedMessage(s) == SendRejectedMessage(t) <==> s == t
  {
  }

  /** The failure message embeds the payload: it can be read back between the brackets. */
  lemma SendFailedMessageNamesPayload(payload: string)
    ensures var m := SendFailedMessage(payload);
      |m| == |SendFailedPrefix| + |payload| + 1 &&
      m[|SendFailedPrefix|..|m| - 1] == payload
  {
  }

  /** An application frame goes to the router as (event name, raw frame); nothing else changes. */
  lemma AppFrameIsRouted(o: Observation, event: string, raw: string)
    ensures ReceiveStep(o, App(event, raw)) == o.(routed := o.routed + [Delivery(event, raw)])
  {
  }

  /** `onClose` while CONNECTING or CONNECTED moves to DISCONNECTED with one notification and no error. */
  lemma CloseWhileLive(o: Observation)
    requires o.state != Disconnected && o.listening
    ensures CloseStep(o) ==
      o.(state := Disconnected, stateChanges := o.stateChanges + [StateChange(o.state, Disconnected)])
  {
  }

  /** `onError(e)` while CONNECTING or CONNECTED moves to DISCONNECTED with one notification and one error carrying `e`. */
  lemma TransportErrorWhileLive(o: Observation, e: Cause)
    requires o.state != Disconnected && o.listening
    ensures TransportErrorStep(o, e) ==
      o.(state := Disconnected,
         stateChanges := o.stateChanges + [StateChange(o.state, Disconnected)],
         errors := o.errors + [ErrorEvent(WebsocketErrorMessage, None, Some(e))])
  {
  }

  // ---------------------------------------------------------------------------
  // Invariants of every run

  /**
   * The notifications form a walk along the lifecycle graph that ends in the
   * current state; before a listener is registered nothing has been heard.
   */
  predicate Coherent(o: Observation)
  {
    var log := o.stateChanges;
    (!o.listening ==> log == [] && o.errors == []) &&
    (forall i :: 0 <= i < |log| ==> IsTransition(log[i])) &&
    (forall i :: 0 < i < |log| ==> log[i - 1].current == log[i].previous) &&
    (log != [] ==> log[|log| - 1].current == o.state)
  }

  /** Every call leaves the state where it was or moves it along one edge of the lifecycle graph, listener or not. */
  lemma ApplyMovesAlongGraph(o: Observation, i: Input)
    ensures var r := Apply(o, i);
      r.state == o.state || IsTransition(StateChange(o.state, r.state))
  {
  }

  lemma TransitionKeepsCoherent(o: Observation, next: ConnectionState)
    requires Coherent(o)
    requires o.state != next ==> IsTransition(StateChange(o.state, next))
    ensures Coherent(Transition(o, next))
  {
  }

  lemma ApplyKeepsCoherent(o: Observation, i: Input)
    requires Coherent(o)
    ensures Coherent(Apply(o, i))
  {
    match i
    case Connect =>
      if o.state == Disconnected {
        TransitionKeepsCoherent(o.(transportConnects := o.transportConnects + 1), Connecting);
      }
    case Receive(f) =>
      if f.Established? && o.state == Connecting {
        TransitionKeepsCoherent(o, Connected);
      }
    case Close(_, _, _) =>
      TransitionKeepsCoherent(o, Disconnected);
    case TransportError(e) =>
      TransitionKeepsCoherent(o, Disconnected);
    case _ =>
  }

  lemma {:induction false} RunKeepsCoherent(o: Observation, ins: seq<Input>)
    requires Coherent(o)
    ensures Coherent(Run(o, ins))
    decreases |ins|
  {
    if ins != [] {
      ApplyKeepsCoherent(o, ins[0]);
      RunKeepsCoherent(Apply(o, ins[0]), ins[1..]);
    }
  }

  /**
   * A call notifies the listener at most once, and it does so exactly when
   * the state changes (while a listener is registered); the notification
   * names the old and the new state.
   */
  lemma NotifiesExactlyOnChange(o: Observation, i: Input)
    ensures var r := Apply(o, i);
      r.stateChanges == o.stateChanges ||
      r.stateChanges == o.stateChanges + [StateChange(o.state, r.state)]
    ensures var r := Apply(o, i);
      r.stateChanges != o.stateChanges <==> (o.listening && r.state != o.state)
  {
  }

  /** The transport's `send` is reached only while CONNECTED, and only with the payload given. */
  lemma SendGating(o: Observation, i: Input)
    ensures var r := Apply(o, i);
      r.sent == o.sent ||
      (o.state == Connected && i.Send? && r.sent == o.sent + [i.payload])
  {
  }

  /** Every collaborator's log only grows: nothing already observed is ever retracted. */
  predicate Extends(o: Observation, r: Observation)
  {
    o.stateChanges <= r.stateChanges && o.errors <= r.errors &&
    o.sent <= r.sent && o.routed <= r.routed &&
    o.transportConnects <= r.transportConnects &&
    (o.listening ==> r.listening)
  }

  lemma {:induction false} RunExtends(o: Observation, ins: seq<Input>)
    ensures Extends(o, Run(o, ins))
    decreases |ins|
  {
    if ins != [] {
      RunExtends(Apply(o, ins[0]), ins[1..]);
    }
  }

  /** The number of DISCONNECTED -> CONNECTING notifications in a log. */
  function Openings(log: seq<StateChange>): nat
  {
    if log == [] then 0
    else Openings(log[..|log| - 1]) + (if log[|log| - 1] == StateChange(Disconnected, Connecting) then 1 else 0)
  }

  /**
   * With a listener registered, every transport `connect` call comes with
   * exactly one DISCONNECTED -> CONNECTING notification, and vice versa.
   */
  lemma {:induction false} ConnectsMatchOpenings(o: Observation, ins: seq<Input>)
    requires o.listening
    ensures var r := Run(o, ins);
      r.transportConnects - o.transportConnects == Openings(r.stateChanges) - Openings(o.stateChanges)
    decreases |ins|
  {
    if ins != [] {
      var o' := Apply(o, ins[0]);
      if o'.stateChanges != o.stateChanges {
        NotifiesExactlyOnChange(o, ins[0]);
        var log := o'.stateChanges;
        assert log[..|log| - 1] == o.stateChanges;
      }
      ConnectsMatchOpenings(o', ins[1..]);
    }
  }

  // ---------------------------------------------------------------------------
  // The connection object

  /**
   * `WebsocketConnection`: the mutable lifecycle state plus the slots its
   * collaborators are observed through. Each method performs one call and
   * leaves exactly the observation the matching step function describes.
   */
  class WebsocketConnection {
    const apiKey: string
    var state: ConnectionState
    var listening: bool
    var stateChanges: seq<StateChange>   // heard by the listener's onConnectionStateChange
    var errors: seq<ErrorEvent>          // heard by the listener's onError
    var transportConnects: nat           // calls of the transport's connect
    var sent: seq<string>                // calls of the transport's send
    var routed: seq<Delivery>            // calls of the router's onMessage

    function Observe(): Observation
      reads this
    {
      Observation(state, listening, stateChanges, errors, transportConnects, sent, routed)
    }

    ghost predicate Valid()
      reads this
    {
      Coherent(Observe())
    }

    constructor (apiKey: string)
      ensures Valid() && Observe() == Init() && this.apiKey == apiKey
    {
      this.apiKey := apiKey;
      state := Disconnected;
      listening := false;
      stateChanges, errors := [], [];
      transportConnects, sent, routed := 0, [], [];
    }

    method SetEventListener()
      requires Valid()
      modifies this
      ensures Valid() && Observe() == SetListenerStep(old(Observe()))
    {
      listening := true;
    }

    method GetState() returns (s: ConnectionState)
      ensures s == Observe().state
    {
      s := state;
    }

    method Connect()
      requires Valid()
      modifies this
      ensures Valid() && Observe() == ConnectStep(old(Observe()))
    {
      if state == Disconnected {
        transportConnects := transportConnects + 1;
        UpdateState(Connecting);
      }
      ApplyKeepsCoherent(old(Observe()), Input.Connect);
    }

    method OnMessage(frame: Frame)
      requires Valid()
      modifies this
      ensures Valid() && Observe() == ReceiveStep(old(Observe()), frame)
    {
      match frame {
        case Established(_) =>
          if state == Connecting {
            UpdateState(Connected);
          }
        case ProtoError(code, message) =>
          RaiseListenerError(ErrorEvent(message, RenderCode(code), None));
        case App(event, raw) =>
          routed := routed + [Delivery(event, raw)];
      }
      ApplyKeepsCoherent(old(Observe()), Receive(frame));
    }

    /** `failure` is the exception the transport's send throws, if it throws one. */
    method SendMessage(payload: string, failure: Option<Cause>)
      requires Valid()
      modifies this
      ensures Valid() && Observe() == SendStep(old(Observe()), payload, failure)
    {
      if state != Connected {
        RaiseListenerError(ErrorEvent(SendRejectedMessage(state), None, None));
      } else {
        sent := sent + [payload];
        if failure.Some? {
          RaiseListenerError(ErrorEvent(SendFailedMessage(payload), None, failure));
        }
      }
      ApplyKeepsCoherent(old(Observe()), Send(payload, failure));
    }

    method OnClose(code: int, reason: string, remote: bool)
      requires Valid()
      modifies this
      ensures Valid() && Observe() == CloseStep(old(Observe()))
    {
      UpdateState(Disconnected);
      ApplyKeepsCoherent(old(Observe()), Close(code, reason, remote));
    }

    method OnError(cause: Cause)
      requires Valid()
      modifies this
      ensures Valid() && Observe() == TransportErrorStep(old(Observe()), cause)
    {
      UpdateState(Disconnected);
      RaiseListenerError(ErrorEvent(WebsocketErrorMessage, None, Some(cause)));
      ApplyKeepsCoherent(old(Observe()), TransportError(cause));
    }

    /** Moves to `next`; only a move along an edge of the lifecycle graph, or to the same state, is allowed. */
    method UpdateState(next: ConnectionState)
      requires Valid()
      requires state != next ==> IsTransition(StateChange(state, next))
      modifies this
      ensures Valid() && Observe() == Transition(old(Observe()), next)
    {
      if state != next {
        var change := StateChange(state, next);
        state := next;
        if listening {
          stateChanges := stateChanges + [change];
        }
      }
    }

    method RaiseListenerError(e: ErrorEvent)
      requires Valid()
      modifies this
      ensures Valid() && Observe() == RaiseError(old(Observe()), e)
    {
      if listening {
        errors := errors + [e];
      }
    }
  }
}
