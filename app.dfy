/**
 * The relay component's state and its event handlers. Each handler of the
 * component is one method; the browser delivers events one at a time, so each
 * method runs to completion. The environment the component talks to is kept
 * as fields too: the HTTP requests sent, the `close()` calls made on media
 * handles, every WebSocket created with its ready state, the frames sent and
 * the reconnect timers pending.
 */
module Relay {
  import opened Wrappers
  import opened TranslationBuffer
  import opened Configuration
  import opened ObsProtocol

  /** A media handle created by one start attempt (numbered by attempt). */
  datatype Handle = DataChannel(attempt: nat) | PeerConnection(attempt: nat)

  /** A frame sent on the WebSocket with the given index. */
  datatype Sent = Sent(socket: nat, frame: Frame)

  /** The translation session's part of the state. */
  datatype SessionView = SessionView(
    isSessionActive: bool,
    dataChannel: Option<nat>,
    peerConnection: Option<nat>,
    attempts: nat,
    closed: seq<Handle>,
    requests: seq<HttpRequest>,
    errorMessage: string)

  /** The overlay link's part of the state. */
  datatype OverlayView = OverlayView(
    sockets: seq<ReadyState>,
    ws: Option<nat>,
    obsConnected: bool,
    pendingReconnects: nat,
    outbox: seq<Sent>)

  class App {
    /** The form settings; the model keeps them fixed for the component's life. */
    const config: Config

    // Component state.
    var isSessionActive: bool
    var dataChannel: Option<nat>
    var peerConnection: Option<nat>
    var translation: string
    var errorMessage: string
    /** The socket stored by `setWs`, an index into `sockets`. */
    var ws: Option<nat>
    var obsConnected: bool

    // The environment, as the component sees it.
    var attempts: nat
    var closed: seq<Handle>
    var requests: seq<HttpRequest>
    /** Every WebSocket created, oldest first; the last one is the global `socket`. */
    var sockets: seq<ReadyState>
    var outbox: seq<Sent>
    /** `setTimeout(connectOBS, 5000)` calls that have not fired yet. */
    var pendingReconnects: nat

    /** Every fragment ever appended to the buffer, in order. */
    ghost var stream: string
    /** The sockets on which a ready (op 5) frame arrived. */
    ghost var identified: set<nat>

    /** The object invariant. */
    ghost predicate Valid()
      reads this
    {
      LinkValid() && BufferValid() && HandlesValid()
    }

    /** The overlay link's invariant. */
    ghost predicate LinkValid()
      reads this`ws, this`sockets, this`identified, this`outbox, this`obsConnected
    {
      && (ws.Some? ==> ws.value < |sockets| && ws.value in identified)
      && (forall k :: k in identified ==> k < |sockets|)
      && (forall i :: 0 <= i < |outbox| ==> outbox[i].socket < |sockets|)
      // No text request is ever sent on a socket that has not been identified.
      && (forall i :: 0 <= i < |outbox| && outbox[i].frame.Request? ==> outbox[i].socket in identified)
      // The connected indicator is on only while the stored socket is open.
      && (obsConnected ==> ws.Some? && sockets[ws.value] == Open)
    }

    /** The buffer is the trailing window of everything received. */
    ghost predicate BufferValid()
      reads this`translation, this`stream
    {
      config.charLimit >= 1 ==> translation == Suffix(stream, config.charLimit)
    }

    /** Stored media handles come from earlier start attempts. */
    ghost predicate HandlesValid()
      reads this`dataChannel, this`peerConnection, this`attempts
    {
      && (dataChannel.Some? ==> dataChannel.value < attempts)
      && (peerConnection.Some? ==> peerConnection.value < attempts)
    }

    function Session(): SessionView
      reads this
    {
      SessionView(isSessionActive, dataChannel, peerConnection, attempts, closed, requests, errorMessage)
    }

    function Overlay(): OverlayView
      reads this
    {
      OverlayView(sockets, ws, obsConnected, pendingReconnects, outbox)
    }

    /** `ws && ws.readyState === WebSocket.OPEN`. */
    predicate CanSend()
      reads this
    {
      ws.Some? && ws.value < |sockets| && sockets[ws.value] == Open
    }

    /** The session is stopped: nothing for `stopSession` to do. */
    predicate Stopped()
      reads this
    {
      !isSessionActive && dataChannel.None? && peerConnection.None?
    }

    /** The initial render: empty buffer, no session, no overlay socket. */
    constructor (config: Config)
      ensures Valid()
      ensures this.config == config
      ensures Stopped() && translation == "" && errorMessage == ""
      ensures ws.None? && !obsConnected
      ensures attempts == 0 && closed == [] && requests == [] && sockets == [] && outbox == [] && pendingReconnects == 0
      ensures stream == "" && identified == {}
    {
      this.config := config;
      isSessionActive, dataChannel, peerConnection := false, None, None;
      translation, errorMessage := "", "";
      ws, obsConnected := None, false;
      attempts, closed, requests := 0, [], [];
      sockets, outbox, pendingReconnects := [], [], 0;
      stream, identified := "", {};
    }

    /**
     * `startSession`: nothing but the error message when the configuration is
     * incomplete; otherwise it mints a token, stores a new data channel and,
     * on full success, stores the peer connection and connects the overlay.
     * The source calls the undeclared `setModelConnected` (line 120) just
     * before `connectOBS()`, so as written the overlay is never connected; this
     * method follows the evident intent (see `Configuration.StartAsWritten`).
     */
    method StartSession(env: StartEnv)
      requires Valid()
      modifies this`errorMessage, this`requests, this`dataChannel, this`peerConnection, this`attempts, this`sockets
      ensures Valid()
      ensures IsError(config) ==> Session() == old(Session()).(errorMessage := ConfigErrorMessage)
      ensures IsError(config) ==> Overlay() == old(Overlay())
      ensures Applied(Start(config, env), old(Session()), old(Overlay()))
      ensures translation == old(translation)
    {
      ApplyStart(Start(config, env));
    }

    /** The state `startSession` leaves behind, given what its external steps did. */
    ghost predicate Applied(p: StartPlan, before: SessionView, overlayBefore: OverlayView)
      reads this
    {
      && Session() == before.(
           errorMessage := p.errorMessage,
           requests := before.requests + p.requests,
           dataChannel := if p.opensChannel then Some(before.attempts) else before.dataChannel,
           attempts := if p.opensChannel then before.attempts + 1 else before.attempts,
           peerConnection := if p.storesPeer then Some(before.attempts) else before.peerConnection)
      && Overlay() == (if p.connectsOverlay then overlayBefore.(sockets := overlayBefore.sockets + [Connecting]) else overlayBefore)
    }

    /** The state updates of one `startSession` run. */
    method ApplyStart(p: StartPlan)
      requires Valid()
      requires p.storesPeer ==> p.opensChannel
      modifies this`errorMessage, this`requests, this`dataChannel, this`peerConnection, this`attempts, this`sockets
      ensures Valid()
      ensures Applied(p, old(Session()), old(Overlay()))
      ensures translation == old(translation)
    {
      errorMessage := p.errorMessage;
      requests := requests + p.requests;
      if p.opensChannel {
        dataChannel := Some(attempts);
        if p.storesPeer {
          peerConnection := Some(attempts);
        }
        attempts := attempts + 1;
      }
      if p.connectsOverlay {
        ConnectObs();
      }
    }

    /**
     * `stopSession`: closes the stored data channel and peer connection, if
     * any, and clears them. On a stopped session it changes nothing, so a
     * second call is harmless. The overlay link and the buffer are untouched.
     */
    method StopSession()
      requires Valid()
      modifies this`closed, this`isSessionActive, this`dataChannel, this`peerConnection
      ensures Valid()
      ensures Stopped()
      ensures closed == old(closed)
        + (if old(dataChannel).Some? then [DataChannel(old(dataChannel).value)] else [])
        + (if old(peerConnection).Some? then [PeerConnection(old(peerConnection).value)] else [])
      ensures old(Stopped()) ==> Session() == old(Session())
      ensures attempts == old(attempts) && requests == old(requests) && errorMessage == old(errorMessage)
      ensures Overlay() == old(Overlay()) && translation == old(translation)
    {
      if dataChannel.Some? {
        closed := closed + [DataChannel(dataChannel.value)];
      }
      if peerConnection.Some? {
        closed := closed + [PeerConnection(peerConnection.value)];
      }
      isSessionActive := false;
      dataChannel := None;
      peerConnection := None;
    }

    /** The data channel's `open` listener: the AI session becomes active. */
    method OnChannelOpen()
      requires Valid()
      modifies this`isSessionActive
      ensures Valid()
      ensures isSessionActive == (old(isSessionActive) || dataChannel.Some?)
      ensures Session() == old(Session()).(isSessionActive := isSessionActive)
      ensures Overlay() == old(Overlay()) && translation == old(translation)
    {
      if dataChannel.Some? {
        isSessionActive := true;
      }
    }

    /**
     * `setFreetypeText`: sends exactly one `SetInputSettings` frame on the
     * stored socket when it is open, and silently nothing otherwise.
     */
    method SetFreetypeText(text: string)
      requires Valid()
      modifies this`outbox
      ensures Valid()
      ensures old(CanSend()) ==> outbox == old(outbox) + [Sent(old(ws).value, SetTextRequest(config.sourceName, text))]
      ensures !old(CanSend()) ==> outbox == old(outbox)
      ensures Overlay() == old(Overlay()).(outbox := outbox)
      ensures Session() == old(Session()) && translation == old(translation)
    {
      if ws.Some? && ws.value < |sockets| && sockets[ws.value] == Open {
        outbox := outbox + [Sent(ws.value, SetTextRequest(config.sourceName, text))];
      }
    }

    /**
     * The data channel's `message` listener: the buffer takes one `Receive`
     * step and stays the trailing window of everything received.
     */
    method UpdateTranslation(msg: ChannelMessage)
      requires Valid()
      modifies this`translation, this`stream
      ensures Valid()
      ensures translation == Receive(old(translation), msg, config.charLimit)
      ensures stream == old(stream) + Contributed(msg)
    {
      if config.charLimit >= 1 {
        ReceiveKeepsWindow(stream, msg, config.charLimit);
      }
      translation := Receive(translation, msg, config.charLimit);
      stream := stream + Contributed(msg);
    }

    /**
     * A data-channel message: the listener updates the buffer (only a stored
     * channel has one), and the effect on `translation` pushes the new text
     * to the overlay when its value changed.
     */
    method OnChannelMessage(msg: ChannelMessage)
      requires Valid()
      modifies this`translation, this`stream, this`outbox
      ensures Valid()
      ensures translation == (if old(dataChannel).Some? then Receive(old(translation), msg, config.charLimit) else old(translation))
      ensures stream == old(stream) + (if old(dataChannel).Some? then Contributed(msg) else "")
      ensures translation != old(translation) && old(CanSend()) ==>
        outbox == old(outbox) + [Sent(old(ws).value, SetTextRequest(config.sourceName, translation))]
      ensures translation == old(translation) || !old(CanSend()) ==> outbox == old(outbox)
      ensures Overlay() == old(Overlay()).(outbox := outbox)
      ensures Session() == old(Session())
    {
      if dataChannel.Some? {
        var before := translation;
        UpdateTranslation(msg);
        if translation != before {
          SetFreetypeText(translation);
        }
      }
    }

    /** `connectOBS`: a new WebSocket to the configured URL becomes the global `socket`. */
    method ConnectObs()
      requires Valid()
      modifies this`sockets
      ensures Valid()
      ensures Overlay() == old(Overlay()).(sockets := old(sockets) + [Connecting])
      ensures Session() == old(Session()) && translation == old(translation)
    {
      sockets := sockets + [Connecting];
    }

    /** `socket.onopen`: the socket is open and the op 1 identify frame is sent on it. */
    method OnSocketOpen()
      requires Valid()
      modifies this`sockets, this`outbox
      ensures Valid()
      ensures old(|sockets| > 0 && sockets[|sockets| - 1] == Connecting) ==>
        Overlay() == old(Overlay()).(sockets := old(sockets)[old(|sockets|) - 1 := Open],
                                     outbox := old(outbox) + [Sent(old(|sockets|) - 1, IdentifyFrame)])
      ensures !old(|sockets| > 0 && sockets[|sockets| - 1] == Connecting) ==> Overlay() == old(Overlay())
      ensures Session() == old(Session()) && translation == old(translation)
    {
      if |sockets| > 0 && sockets[|sockets| - 1] == Connecting {
        var current := |sockets| - 1;
        sockets := sockets[current := Open];
        outbox := outbox + [Sent(current, IdentifyFrame)];
      }
    }

    /**
     * `socket.onmessage` on the open current socket: an authentication hello
     * is answered on that socket; a ready frame stores it as `ws` and turns
     * the connected indicator on; anything else is ignored.
     */
    method OnSocketMessage(msg: ServerMessage)
      requires Valid()
      modifies this`outbox, this`identified, this`ws, this`obsConnected
      ensures Valid()
      ensures old(|sockets| > 0 && sockets[|sockets| - 1] == Open) ==>
        match React(msg, config.password)
        case Reply(f) => Overlay() == old(Overlay()).(outbox := old(outbox) + [Sent(old(|sockets|) - 1, f)])
        case MarkConnected => Overlay() == old(Overlay()).(ws := Some(old(|sockets|) - 1), obsConnected := true)
        case Ignore => Overlay() == old(Overlay())
      ensures !old(|sockets| > 0 && sockets[|sockets| - 1] == Open) ==> Overlay() == old(Overlay())
      ensures identified == old(identified) +
        (if old(|sockets| > 0 && sockets[|sockets| - 1] == Open) && React(msg, config.password).MarkConnected?
         then {old(|sockets|) - 1} else {})
      ensures Session() == old(Session()) && translation == old(translation)
    {
      if |sockets| > 0 && sockets[|sockets| - 1] == Open {
        var current := |sockets| - 1;
        match React(msg, config.password)
        case Reply(f) =>
          outbox := outbox + [Sent(current, f)];
        case MarkConnected =>
          identified := identified + {current};
          ws := Some(current);
          obsConnected := true;
        case Ignore =>
      }
    }

    /**
     * `socket.onerror`: the indicator goes off and `socket.close()` is called.
     * On a connecting or open socket that call starts the closing handshake;
     * on a closing or closed socket it does nothing. A browser fires `error`
     * only once the socket is already closed, so there the call has no effect.
     */
    method OnSocketError()
      requires Valid()
      modifies this`sockets, this`obsConnected
      ensures Valid()
      ensures |sockets| > 0 ==> !obsConnected
      ensures old(|sockets| > 0 && sockets[|sockets| - 1] in {Connecting, Open}) ==>
        sockets == old(sockets)[old(|sockets|) - 1 := Closing]
      ensures !old(|sockets| > 0 && sockets[|sockets| - 1] in {Connecting, Open}) ==> sockets == old(sockets)
      ensures Overlay() == old(Overlay()).(sockets := sockets, obsConnected := obsConnected)
      ensures |sockets| == 0 ==> Overlay() == old(Overlay())
      ensures Session() == old(Session()) && translation == old(translation)
    {
      if |sockets| > 0 {
        var current := |sockets| - 1;
        if sockets[current] == Connecting || sockets[current] == Open {
          sockets := sockets[current := Closing];
        }
        obsConnected := false;
      }
    }

    /**
     * `socket.onclose`: the socket is closed, exactly one reconnect is
     * scheduled and the indicator goes off. A socket closes only once.
     */
    method OnSocketClose()
      requires Valid()
      modifies this`sockets, this`pendingReconnects, this`obsConnected
      ensures Valid()
      ensures old(|sockets| > 0 && sockets[|sockets| - 1] != Closed) ==>
        Overlay() == old(Overlay()).(sockets := old(sockets)[old(|sockets|) - 1 := Closed],
                                     pendingReconnects := old(pendingReconnects) + 1,
                                     obsConnected := false)
      ensures !old(|sockets| > 0 && sockets[|sockets| - 1] != Closed) ==> Overlay() == old(Overlay())
      ensures Session() == old(Session()) && translation == old(translation)
    {
      if |sockets| > 0 && sockets[|sockets| - 1] != Closed {
        var current := |sockets| - 1;
        sockets := sockets[current := Closed];
        pendingReconnects := pendingReconnects + 1;
        obsConnected := false;
      }
    }

    /** A pending reconnect timer fires and calls `connectOBS`. */
    method OnReconnectTimer()
      requires Valid()
      modifies this`pendingReconnects, this`sockets
      ensures Valid()
      ensures old(pendingReconnects) > 0 ==>
        Overlay() == old(Overlay()).(sockets := old(sockets) + [Connecting],
                                     pendingReconnects := old(pendingReconnects) - 1)
      ensures old(pendingReconnects) == 0 ==> Overlay() == old(Overlay())
      ensures Session() == old(Session()) && translation == old(translation)
    {
      if pendingReconnects > 0 {
        pendingReconnects := pendingReconnects - 1;
        ConnectObs();
      }
    }
  }
}
