/**
 * The overlay link: frames exchanged with the production tool's WebSocket
 * server (obs-websocket), with the op numbers the component itself uses.
 * Cryptographic digests and Base64 are kept symbolic, so the model records
 * only the order in which the authentication token is composed.
 */
module ObsProtocol {
  import opened Wrappers

  /** `WebSocket.readyState`. */
  datatype ReadyState = Connecting | Open | Closing | Closed

  /** Op numbers the component checks and sends. */
  const IdentifyOp := 1
  const AuthOp := 2
  const HelloOp := 2
  const ReadyOp := 5
  const RequestOp := 6

  /** The `authentication` object of a hello: salt and challenge. */
  datatype Authentication = Authentication(salt: string, challenge: string)

  /**
   * A server frame after `JSON.parse`: its `op`, its `d.authentication` if
   * present and truthy, and whether `d` has its own `negotiatedRpcVersion`
   * property; or a payload that does not parse (or has no `d`).
   */
  datatype ServerMessage =
    | ServerFrame(op: int, authentication: Option<Authentication>, hasNegotiatedRpcVersion: bool)
    | Unparsable

  /** Symbolic byte strings: UTF-8 text, a SHA-256 digest, a concatenation. */
  datatype Bytes = Utf8(text: string) | Sha256(input: Bytes) | Join(left: Bytes, right: Bytes)

  /** Client frames; `Authenticate` carries the bytes whose Base64 (`btoa`) is sent. */
  datatype Frame =
    | Identify(rpcVersion: int)
    | Authenticate(token: Bytes)
    | Request(requestType: string, requestId: string, inputName: string, text: string)

  /** The `op` field each client frame is sent with. */
  function Op(f: Frame): (op: int)
    ensures op == IdentifyOp <==> f.Identify?
    ensures op == AuthOp <==> f.Authenticate?
    ensures op == RequestOp <==> f.Request?
  {
    match f
    case Identify(_) => IdentifyOp
    case Authenticate(_) => AuthOp
    case Request(_, _, _, _) => RequestOp
  }

  /** The frame sent on open: `{op: 1, d: {rpcVersion: 1}}`. */
  const IdentifyFrame := Identify(1)

  /** `setFreetypeText`'s frame: a `SetInputSettings` request for the text of the named input. */
  function SetTextRequest(inputName: string, text: string): Frame
  {
    Request("SetInputSettings", "updateText", inputName, text)
  }

  /**
   * The digest whose Base64 is the authentication token: SHA-256 of the raw
   * bytes of SHA-256(password + salt) followed by the UTF-8 challenge.
   */
  function AuthDigest(password: string, auth: Authentication): Bytes
  {
    Sha256(Join(Sha256(Utf8(password + auth.salt)), Utf8(auth.challenge)))
  }

  /**
   * Under the symbolic hash, which is collision-free because `Sha256` is a
   * datatype constructor, the token commits to the password: for the same
   * salt, equal digests come from equal passwords and equal challenges. The
   * proof's own step is cancelling the common salt.
   */
  lemma {:induction false} AuthDigestInjective(p1: string, p2: string, a1: Authentication, a2: Authentication)
    requires a1.salt == a2.salt
    requires AuthDigest(p1, a1) == AuthDigest(p2, a2)
    ensures p1 == p2 && a1.challenge == a2.challenge
  {
    var s1, s2 := p1 + a1.salt, p2 + a2.salt;
    assert Utf8(s1) == Utf8(s2);
    assert |p1| == |p2|;
    assert p1 == s1[..|p1|] && p2 == s2[..|p2|];
  }

  /** How the message handler reacts to one server frame. */
  datatype Reaction = Reply(frame: Frame) | MarkConnected | Ignore

  /**
   * `socket.onmessage` with the evidently intended password (`OBS_PASSWORD`
   * and `sha256` are undeclared at line 192; the password here is the
   * configured one): a hello with a challenge is answered with an op 2
   * frame, and only an op 5 frame with `negotiatedRpcVersion` marks the link
   * connected.
   */
  function React(msg: ServerMessage, password: string): (r: Reaction)
    ensures r.MarkConnected? <==> msg.ServerFrame? && msg.op == ReadyOp && msg.hasNegotiatedRpcVersion
    ensures r.Reply? <==> msg.ServerFrame? && msg.op == HelloOp && msg.authentication.Some?
    ensures r.Reply? ==> Op(r.frame) == AuthOp && r.frame.token == AuthDigest(password, msg.authentication.value)
  {
    match msg
    case Unparsable => Ignore
    case ServerFrame(op, auth, negotiated) =>
      if op == HelloOp && auth.Some? then Reply(Authenticate(AuthDigest(password, auth.value)))
      else if op == ReadyOp && negotiated then MarkConnected
      else Ignore
  }

  /**
   * `socket.onmessage` as written: evaluating `sha256(OBS_PASSWORD + salt)`
   * throws a ReferenceError inside the async handler, so a hello with a
   * challenge is never answered.
   */
  function ReactAsWritten(msg: ServerMessage): (r: Reaction)
    ensures !r.Reply?
    ensures r.MarkConnected? <==> msg.ServerFrame? && msg.op == ReadyOp && msg.hasNegotiatedRpcVersion
  {
    match msg
    case Unparsable => Ignore
    case ServerFrame(op, auth, negotiated) =>
      if op == HelloOp && auth.Some? then Ignore
      else if op == ReadyOp && negotiated then MarkConnected
      else Ignore
  }

  /** A password-protected hello that, as written, gets no answer. */
  lemma ChallengeUnansweredAsWritten()
    ensures var hello := ServerFrame(HelloOp, Some(Authentication("s", "c")), false);
            React(hello, "pw") == Reply(Authenticate(AuthDigest("pw", Authentication("s", "c")))) &&
            ReactAsWritten(hello) == Ignore
  {
  }
}
