/**
 * Configuration gating and the start sequence of the relay: `isError`,
 * `fetchToken` and `startSession`. The HTTP calls, the peer connection and
 * the microphone are external; their outcomes are the `StartEnv` parameter and
 * the requests the component sends are returned as data.
 */
module Configuration {
  import opened Wrappers

  /** The settings the component reads from its form (persisted in local storage). */
  datatype Config = Config(
    apiKey: string,
    targetLanguage: string,
    websocketUrl: string,
    password: string,
    sourceName: string,
    charLimit: int)

  /** The text fields that must all be non-empty. */
  function RequiredTexts(c: Config): seq<string>
  {
    [c.apiKey, c.websocketUrl, c.password, c.sourceName, c.targetLanguage]
  }

  /** `isError`: some required text is empty (falsy) or the character limit is 0. */
  predicate IsError(c: Config)
    ensures !IsError(c) ==> c.apiKey != "" && c.charLimit != 0
  {
    c.apiKey == "" || c.websocketUrl == "" || c.password == "" ||
    c.sourceName == "" || c.targetLanguage == "" || c.charLimit == 0
  }

  /**
   * Every field is required on its own: blanking any one of them makes any
   * configuration refused, whatever the other fields hold.
   */
  lemma EachFieldRequired(c: Config)
    ensures IsError(c.(apiKey := "")) && IsError(c.(websocketUrl := "")) && IsError(c.(password := ""))
    ensures IsError(c.(sourceName := "")) && IsError(c.(targetLanguage := "")) && IsError(c.(charLimit := 0))
    ensures !IsError(c) ==> forall i :: 0 <= i < |RequiredTexts(c)| ==> |RequiredTexts(c)[i]| > 0
  {
  }

  const ConfigErrorMessage := "Please fill in all configuration fields"
  const MissingKeyMessage := "API Key is missing"
  const RealtimeModel := "gpt-4o-realtime-preview-2024-12-17"
  const Voice := "verse"

  /** The natural-language directive sent with the session request. */
  function Instructions(targetLanguage: string): string
  {
    "You are a translator, translating everything you hear into " + targetLanguage
  }

  /** The HTTP requests the component sends to the AI provider. */
  datatype HttpRequest =
    | SessionRequest(bearer: string, model: string, voice: string, modalities: seq<string>, instructions: string)
    | SdpOffer(bearer: string, model: string)

  /**
   * The `client_secret` of a parsed reply: absent (or the reply is not an
   * object), so reading its `value` throws; or present, with its `value` if
   * that is there.
   */
  datatype Secret = NoSecret | SecretObject(value: Option<string>)

  /** A reply body: `r.json()` rejects with a parse error, or yields the reply's `client_secret`. */
  datatype Body = BadBody(parseError: string) | Json(clientSecret: Secret)

  /** What the session endpoint answered: a status and a body, or a thrown fetch. */
  datatype TokenReply = HttpReply(status: nat, body: Body) | FetchFailed(message: string)

  /** What `fetchToken` sent, and what it returned or threw (the thrown message also becomes the error message). */
  datatype Fetched = Fetched(sent: seq<HttpRequest>, result: Result<Secret, string>)

  function DigitChar(d: nat): char
    requires d < 10
  {
    (48 + d) as char
  }

  /** The decimal text of a status code, as in a template literal. */
  function Decimal(n: nat): (s: string)
    ensures |s| >= 1
    ensures forall i :: 0 <= i < |s| ==> '0' <= s[i] <= '9'
    ensures s[0] == '0' <==> n == 0
    decreases n
  {
    if n < 10 then [DigitChar(n)] else Decimal(n / 10) + [DigitChar(n % 10)]
  }

  /** The number a text of decimal digits denotes. */
  function DigitsValue(s: string): nat
    requires forall i :: 0 <= i < |s| ==> '0' <= s[i] <= '9'
  {
    if s == [] then 0 else 10 * DigitsValue(s[..|s| - 1]) + (s[|s| - 1] as int - '0' as int)
  }

  /** Reading `Decimal(n)` back as digits gives `n`: the text names the status itself. */
  lemma {:induction false} DecimalRoundTrip(n: nat)
    ensures DigitsValue(Decimal(n)) == n
    decreases n
  {
    if n >= 10 {
      var s := Decimal(n);
      assert s[..|s| - 1] == Decimal(n / 10);
      DecimalRoundTrip(n / 10);
    }
  }

  /** A concrete status: 404 is written "404". */
  lemma NotFoundText()
    ensures "HTTP Error: " + Decimal(404) == "HTTP Error: 404"
  {
  }

  predicate IsOk(status: nat) { 200 <= status <= 299 }

  /** `fetchToken`: refuses an empty key before any request, otherwise one POST to the sessions endpoint. */
  function FetchToken(apiKey: string, targetLanguage: string, reply: TokenReply): (f: Fetched)
    ensures apiKey == "" ==> f.sent == [] && f.result == Failure(MissingKeyMessage)
    ensures apiKey != "" ==> f.sent == [SessionRequest(apiKey, RealtimeModel, Voice, ["text"], Instructions(targetLanguage))]
    ensures f.result.Success? <==> apiKey != "" && reply.HttpReply? && IsOk(reply.status) && reply.body.Json?
    ensures f.result.Success? ==> f.result.value == reply.body.clientSecret
    ensures apiKey != "" && reply.HttpReply? && !IsOk(reply.status) ==> f.result == Failure("HTTP Error: " + Decimal(reply.status))
    ensures apiKey != "" && reply.HttpReply? && IsOk(reply.status) && reply.body.BadBody? ==>
      f.result == Failure(reply.body.parseError)
    ensures apiKey != "" && reply.FetchFailed? ==> f.result == Failure(reply.message)
  {
    if apiKey == "" then Fetched([], Failure(MissingKeyMessage))
    else
      var sent := [SessionRequest(apiKey, RealtimeModel, Voice, ["text"], Instructions(targetLanguage))];
      match reply
      case FetchFailed(message) => Fetched(sent, Failure(message))
      case HttpReply(status, body) =>
        if !IsOk(status) then Fetched(sent, Failure("HTTP Error: " + Decimal(status)))
        else match body
          case BadBody(parseError) => Fetched(sent, Failure(parseError))
          case Json(secret) => Fetched(sent, Success(secret))
  }

  /**
   * The outcomes of the external steps of `startSession` after the token, in
   * order: whether the microphone was granted (`getUserMedia`), whether
   * `createOffer` and `setLocalDescription` succeeded, and whether the SDP
   * exchange and `setRemoteDescription` succeeded.
   */
  datatype StartEnv = StartEnv(token: TokenReply, microphone: bool, offerCreated: bool, answerApplied: bool)

  /**
   * What one `startSession` call does: the requests it sends, the final error
   * message, whether it stores a new data channel and a new peer connection,
   * and whether it goes on to connect the overlay.
   */
  datatype StartPlan = StartPlan(
    requests: seq<HttpRequest>,
    errorMessage: string,
    opensChannel: bool,
    storesPeer: bool,
    connectsOverlay: bool)

  /**
   * The token step let the start go on: a 2xx reply whose body parsed and
   * has a `client_secret` object (its `value` may still be missing).
   */
  predicate TokenUsable(token: TokenReply)
  {
    token.HttpReply? && IsOk(token.status) && token.body.Json? && token.body.clientSecret.SecretObject?
  }

  /** The ephemeral key the SDP offer carries: `client_secret.value` as the template literal renders it. */
  function EphemeralKey(token: TokenReply): string
    requires TokenUsable(token)
  {
    Interpolated(token.body.clientSecret.value)
  }

  /** Every external step of a start succeeded. */
  predicate FullSuccess(env: StartEnv)
  {
    TokenUsable(env.token) && env.microphone && env.offerCreated && env.answerApplied
  }

  /**
   * `startSession` with the evidently intended ending: after storing the peer
   * connection it connects the overlay. (As written, line 120 calls the
   * undeclared `setModelConnected`; see `StartAsWritten`.) Exceptions after
   * `fetchToken` are caught and only logged, so they leave the message empty.
   */
  function Start(cfg: Config, env: StartEnv): (p: StartPlan)
    ensures IsError(cfg) ==> p == StartPlan([], ConfigErrorMessage, false, false, false)
    ensures !IsError(cfg) ==> (1 <= |p.requests| <= 2 &&
      p.requests[0] == SessionRequest(cfg.apiKey, RealtimeModel, Voice, ["text"], Instructions(cfg.targetLanguage)))
    ensures p.connectsOverlay <==> !IsError(cfg) && FullSuccess(env)
    ensures p.storesPeer <==> p.connectsOverlay
    ensures p.opensChannel <==> !IsError(cfg) && TokenUsable(env.token) && env.microphone
    ensures |p.requests| == 2 <==> p.opensChannel && env.offerCreated
    ensures |p.requests| == 2 ==> p.requests[1] == SdpOffer(EphemeralKey(env.token), RealtimeModel)
    ensures !IsError(cfg) && env.token.FetchFailed? ==> p.errorMessage == env.token.message
    ensures !IsError(cfg) && env.token.HttpReply? && !IsOk(env.token.status) ==> p.errorMessage == "HTTP Error: " + Decimal(env.token.status)
    ensures !IsError(cfg) && env.token.HttpReply? && IsOk(env.token.status) && env.token.body.BadBody? ==>
      p.errorMessage == env.token.body.parseError
    ensures !IsError(cfg) && env.token.HttpReply? && IsOk(env.token.status) && env.token.body.Json? ==> p.errorMessage == ""
  {
    if IsError(cfg) then StartPlan([], ConfigErrorMessage, false, false, false)
    else
      var f := FetchToken(cfg.apiKey, cfg.targetLanguage, env.token);
      match f.result
      case Failure(message) => StartPlan(f.sent, message, false, false, false)
      case Success(secret) =>
        if secret.NoSecret? then StartPlan(f.sent, "", false, false, false)
        else if !env.microphone then StartPlan(f.sent, "", false, false, false)
        else if !env.offerCreated then StartPlan(f.sent, "", true, false, false)
        else
          var sent := f.sent + [SdpOffer(Interpolated(secret.value), RealtimeModel)];
          if !env.answerApplied then StartPlan(sent, "", true, false, false)
          else StartPlan(sent, "", true, true, true)
  }

  /**
   * `startSession` as written: identical up to line 119, then the call to the
   * undeclared `setModelConnected` throws a ReferenceError, which the catch
   * block only logs, so `connectOBS()` is never reached.
   */
  function StartAsWritten(cfg: Config, env: StartEnv): (p: StartPlan)
    ensures !p.connectsOverlay
    ensures p.storesPeer <==> !IsError(cfg) && FullSuccess(env)
    ensures p.requests == Start(cfg, env).requests && p.errorMessage == Start(cfg, env).errorMessage
  {
    Start(cfg, env).(connectsOverlay := false)
  }

  /** A complete, successful start that, as written, never reaches the overlay. */
  lemma OverlayUnreachableAsWritten()
    ensures var cfg := Config("sk", "english", "ws://localhost:4455", "pw", "Subtitles", 200);
            var env := StartEnv(HttpReply(200, Json(SecretObject(Some("ek")))), true, true, true);
            Start(cfg, env).connectsOverlay && !StartAsWritten(cfg, env).connectsOverlay
  {
  }

  /**
   * A 2xx reply whose `client_secret` has no `value` does not stop the start:
   * the channel is stored and the SDP offer carries the text "undefined". A
   * reply without `client_secret` throws before the channel is created.
   */
  lemma MissingSecretValue(cfg: Config, microphone: bool, answerApplied: bool)
    requires !IsError(cfg) && microphone
    ensures var p := Start(cfg, StartEnv(HttpReply(200, Json(SecretObject(None))), microphone, true, answerApplied));
            p.opensChannel && |p.requests| == 2 && p.requests[1] == SdpOffer("undefined", RealtimeModel) && p.errorMessage == ""
    ensures var p := Start(cfg, StartEnv(HttpReply(200, Json(NoSecret)), microphone, true, answerApplied));
            !p.opensChannel && |p.requests| == 1 && p.errorMessage == ""
  {
  }
}
