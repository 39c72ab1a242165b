/** The push channel: the typed events, the decoding of one already-parsed
    envelope, the derivation of the stream URL from the REST base URL, the
    capped exponential backoff and the connect / receive / reconnect state
    machine. Timers, tasks and the Combine subject become explicit
    transitions: each transition is one uninterrupted run on the main actor. */
module WebSocketClient {
  import opened Wrappers
  import opened Urls
  import opened JobModel

  datatype Event =
    | NewFile(job: Job)
    | Progress(jobId: string, progress: real)
    | Completed(job: Job)
    | Failed(job: Job)
    | Skipped(jobId: string)

  datatype ClientError = InvalidUrl | InvalidPayload | UnknownEventType(name: string)

  /** A frame's JSON object `{type, job?, job_id?, progress?}`, already parsed. */
  datatype Envelope = Envelope(eventType: string, job: Option<Job>, jobId: Option<string>, progress: Option<real>)

  const KnownTypes: set<string> := {"new_file", "progress", "completed", "failed", "skipped"}

  /** The `type` string the server sends for each kind of event. */
  function TypeName(e: Event): (r: string)
    ensures r in KnownTypes
  {
    match e
    case NewFile(_) => "new_file"
    case Progress(_, _) => "progress"
    case Completed(_) => "completed"
    case Failed(_) => "failed"
    case Skipped(_) => "skipped"
  }

  /** The envelope holds every field its (known) type requires. */
  predicate HasRequiredFields(env: Envelope) {
    if env.eventType in {"new_file", "completed", "failed"} then env.job.Some?
    else if env.eventType == "progress" then env.jobId.Some? && env.progress.Some?
    else if env.eventType == "skipped" then env.jobId.Some?
    else false
  }

  /** The envelope carries exactly the payload of `e` in its required fields. */
  predicate Carries(env: Envelope, e: Event) {
    match e
    case NewFile(j) => env.job == Some(j)
    case Completed(j) => env.job == Some(j)
    case Failed(j) => env.job == Some(j)
    case Progress(id, v) => env.jobId == Some(id) && env.progress == Some(v)
    case Skipped(id) => env.jobId == Some(id)
  }

  /** `WebSocketEvent.decode`: a known type with its required fields gives the
      matching event built from exactly those fields, a known type missing one
      gives `invalidPayload`, and any other type gives `unknownEventType`
      naming it. Fields a type does not require are ignored. */
  function Decode(env: Envelope): (r: Result<Event, ClientError>)
    ensures r.Success? <==> env.eventType in KnownTypes && HasRequiredFields(env)
    ensures r.Success? ==> TypeName(r.value) == env.eventType && Carries(env, r.value)
    ensures env.eventType in KnownTypes && !HasRequiredFields(env) ==> r == Failure(InvalidPayload)
    ensures env.eventType !in KnownTypes ==> r == Failure(UnknownEventType(env.eventType))
  {
    if env.eventType == "new_file" then
      if env.job.Some? then Success(NewFile(env.job.value)) else Failure(InvalidPayload)
    else if env.eventType == "progress" then
      if env.jobId.Some? && env.progress.Some? then Success(Progress(env.jobId.value, env.progress.value))
      else Failure(InvalidPayload)
    else if env.eventType == "completed" then
      if env.job.Some? then Success(Event.Completed(env.job.value)) else Failure(InvalidPayload)
    else if env.eventType == "failed" then
      if env.job.Some? then Success(Event.Failed(env.job.value)) else Failure(InvalidPayload)
    else if env.eventType == "skipped" then
      if env.jobId.Some? then Success(Event.Skipped(env.jobId.value)) else Failure(InvalidPayload)
    else Failure(UnknownEventType(env.eventType))
  }

  /** The envelope the server sends for an event: its type and required
      fields, nothing else. */
  function Encode(e: Event): (env: Envelope)
    ensures env.eventType == TypeName(e) && Carries(env, e)
  {
    match e
    case NewFile(j) => Envelope("new_file", Some(j), None, None)
    case Progress(id, v) => Envelope("progress", None, Some(id), Some(v))
    case Completed(j) => Envelope("completed", Some(j), None, None)
    case Failed(j) => Envelope("failed", Some(j), None, None)
    case Skipped(id) => Envelope("skipped", None, Some(id), None)
  }

  /** Every event survives encoding and decoding. */
  lemma DecodeEncode(e: Event)
    ensures Decode(Encode(e)) == Success(e)
  {
  }

  /** Decoding depends only on the type and the required fields: an envelope
      that decodes gives the same event as the bare envelope of that event. */
  lemma DecodeIgnoresExtraFields(env: Envelope)
    requires Decode(env).Success?
    ensures Decode(Encode(Decode(env).value)) == Decode(env)
  {
    DecodeEncode(Decode(env).value);
  }

  /** One inbound frame. A payload of `None` is one that is not a JSON
      envelope at all. */
  datatype Frame = Text(payload: Option<Envelope>) | Binary(payload: Option<Envelope>) | UnknownFrame

  /** What `receiveLoop` emits for one frame: the decoded event, or nothing
      when the frame is unreadable or does not decode. */
  function FrameEvent(f: Frame): (r: Option<Event>)
    ensures r.Some? <==> !f.UnknownFrame? && f.payload.Some? && Decode(f.payload.value).Success?
    ensures r.Some? ==> Decode(f.payload.value) == Success(r.value)
  {
    match f
    case UnknownFrame => None
    case _ =>
      match f.payload
      case None => None
      case Some(env) =>
        match Decode(env)
        case Success(e) => Some(e)
        case Failure(_) => None
  }

  // ----- stream URL -----

  predicate SecureScheme(scheme: Option<string>) {
    scheme.Some? && Lower(scheme.value) in {"https", "wss"}
  }

  predicate PlainScheme(scheme: Option<string>) {
    scheme.Some? && Lower(scheme.value) in {"http", "ws"}
  }

  /** The case-insensitive scheme mapping of `makeWebSocketURL`: secure HTTP
      and secure streams go to `wss`, plain ones to `ws`, nothing else maps. */
  function StreamScheme(scheme: Option<string>): (r: Option<string>)
    ensures r == Some("wss") <==> SecureScheme(scheme)
    ensures r == Some("ws") <==> PlainScheme(scheme)
    ensures r.None? <==> !SecureScheme(scheme) && !PlainScheme(scheme)
  {
    if scheme.None? then None
    else
      var s := Lower(scheme.value);
      if s == "https" then Some("wss")
      else if s == "http" || s == "ws" then Some("ws")
      else if s == "wss" then Some("wss")
      else None
  }

  /** The mapping does not see the scheme's letter case. */
  lemma StreamSchemeIgnoresCase(s: string)
    ensures StreamScheme(Some(Lower(s))) == StreamScheme(Some(s))
  {
    LowerIdempotent(s);
  }

  const StreamSuffix: string := "/api/ws"

  /** The base path with one trailing `/` removed, then `/api/ws`. */
  function StreamPath(path: string): (r: string)
    ensures |r| >= |StreamSuffix| && r[|r| - |StreamSuffix|..] == StreamSuffix
    ensures r[..|r| - |StreamSuffix|] + (if EndsWithSlash(path) then "/" else "") == path
  {
    var trimmed := if EndsWithSlash(path) then path[..|path| - 1] else path;
    if trimmed == "" then StreamSuffix else trimmed + StreamSuffix
  }

  /** A base path with and without one trailing slash give the same stream
      path, so no doubled separator appears. */
  lemma StreamPathTrailingSlash(path: string)
    requires !EndsWithSlash(path)
    ensures StreamPath(path + "/") == StreamPath(path)
  {
    assert (path + "/")[..|path|] == path;
  }

  /** `makeWebSocketURL`: the scheme mapped, the path extended, and the query
      replaced by the single item `api_key=<apiKey>`; the host is kept. */
  function MakeStreamUrl(base: Url, apiKey: string): (r: Result<Url, ClientError>)
    ensures r.Failure? <==> StreamScheme(base.scheme).None?
    ensures r.Failure? ==> r.error == InvalidUrl
    ensures r.Success? ==> r.value.scheme == StreamScheme(base.scheme)
    ensures r.Success? ==> r.value.authority == base.authority
    ensures r.Success? ==> r.value.path == StreamPath(base.path)
    ensures r.Success? ==> r.value.query == [QueryItem("api_key", apiKey)]
  {
    match StreamScheme(base.scheme)
    case None => Failure(InvalidUrl)
    case Some(s) => Success(Url(Some(s), base.authority, StreamPath(base.path), [QueryItem("api_key", apiKey)]))
  }

  // ----- backoff -----

  function Pow2(n: nat): (r: nat)
    ensures r >= 1
  {
    if n == 0 then 1 else 2 * Pow2(n - 1)
  }

  lemma {:induction false} Pow2Monotone(a: nat, b: nat)
    requires a <= b
    ensures Pow2(a) <= Pow2(b)
    decreases b
  {
    if a < b {
      Pow2Monotone(a, b - 1);
    }
  }

  const MaxReconnectDelay: nat := 30

  /** `min(2^attempt, 30)` seconds. */
  function ReconnectDelay(attempt: nat): (r: nat)
    ensures 1 <= r <= MaxReconnectDelay
    ensures r <= Pow2(attempt)
    ensures r == Pow2(attempt) || r == MaxReconnectDelay
  {
    if Pow2(attempt) < MaxReconnectDelay then Pow2(attempt) else MaxReconnectDelay
  }

  /** Later attempts never wait less. */
  lemma ReconnectDelayMonotone(a: nat, b: nat)
    requires a <= b
    ensures ReconnectDelay(a) <= ReconnectDelay(b)
  {
    Pow2Monotone(a, b);
  }

  /** From the sixth attempt on the delay stays at the cap. */
  lemma ReconnectDelaySaturates(attempt: nat)
    requires attempt >= 5
    ensures ReconnectDelay(attempt) == MaxReconnectDelay
  {
    assert Pow2(5) == 32;
    Pow2Monotone(5, attempt);
  }

  // ----- the client state machine -----

  datatype Connection = Connection(baseUrl: Url, apiKey: string)

  /** The client's fields. `currentLoop` is the receive loop `receiveLoopTask`
      refers to; `liveLoops` are the loops still waiting in `receive()`,
      cancelled or not (a cancelled loop stays there until its pending receive
      ends); `pendingReconnect` is the delay of the scheduled, uncancelled
      reconnect timer. */
  datatype ClientState = ClientState(
    isConnected: bool,
    shouldReconnect: bool,
    reconnectAttempt: nat,
    context: Option<Connection>,
    socket: Option<Url>,
    currentLoop: Option<nat>,
    liveLoops: set<nat>,
    nextLoop: nat,
    pendingReconnect: Option<nat>)

  const Idle: ClientState := ClientState(false, false, 0, None, None, None, {}, 0, None)

  /** The remembered connection yields a stream URL. */
  predicate ContextUsable(s: ClientState) {
    s.context.Some? && MakeStreamUrl(s.context.value.baseUrl, s.context.value.apiKey).Success?
  }

  /** The loop the client holds is still receiving. */
  predicate CurrentLoopLive(s: ClientState) {
    s.currentLoop.Some? && s.currentLoop.value in s.liveLoops
  }

  /** `scheduleReconnect`: nothing unless reconnecting is enabled; otherwise a
      timer of `min(2^attempt, 30)` seconds replaces any earlier one and the
      attempt counter goes up by one. */
  function ScheduleReconnect(s: ClientState): (r: ClientState)
    ensures !s.shouldReconnect ==> r == s
    ensures s.shouldReconnect ==> r.pendingReconnect == Some(ReconnectDelay(s.reconnectAttempt))
    ensures s.shouldReconnect ==> r.reconnectAttempt == s.reconnectAttempt + 1
    ensures r.isConnected == s.isConnected && r.currentLoop == s.currentLoop && r.liveLoops == s.liveLoops
    ensures r.context == s.context && r.socket == s.socket && r.shouldReconnect == s.shouldReconnect && r.nextLoop == s.nextLoop
  {
    if !s.shouldReconnect then s
    else s.(pendingReconnect := Some(ReconnectDelay(s.reconnectAttempt)), reconnectAttempt := s.reconnectAttempt + 1)
  }

  /** `startSocket`: with a usable context, opens a socket on the stream URL,
      resets the attempt counter, marks the client connected and starts a new
      receive loop (cancelling the old one); when the URL cannot be built,
      marks the client disconnected and schedules a reconnect. Without a
      context it does nothing. */
  function StartSocket(s: ClientState): (r: ClientState)
    ensures s.context.None? ==> r == s
    ensures ContextUsable(s) ==>
      (&& r.isConnected && r.reconnectAttempt == 0 && CurrentLoopLive(r)
       && r.currentLoop == Some(s.nextLoop) && r.liveLoops == s.liveLoops + {s.nextLoop}
       && r.socket == Some(MakeStreamUrl(s.context.value.baseUrl, s.context.value.apiKey).value)
       && r.pendingReconnect == s.pendingReconnect && r.shouldReconnect == s.shouldReconnect
       && r.context == s.context && r.nextLoop == s.nextLoop + 1)
    ensures s.context.Some? && !ContextUsable(s) ==> r == ScheduleReconnect(s.(isConnected := false))
  {
    match s.context
    case None => s
    case Some(c) =>
      match MakeStreamUrl(c.baseUrl, c.apiKey)
      case Success(u) =>
        s.(socket := Some(u), reconnectAttempt := 0, isConnected := true,
           currentLoop := Some(s.nextLoop), liveLoops := s.liveLoops + {s.nextLoop},
           nextLoop := s.nextLoop + 1)
      case Failure(_) => ScheduleReconnect(s.(isConnected := false))
  }

  /** `connect`: remembers the connection, enables reconnecting, cancels any
      pending reconnect and starts a socket. */
  function Connect(s: ClientState, baseUrl: Url, apiKey: string): (r: ClientState)
    ensures r.shouldReconnect && r.context == Some(Connection(baseUrl, apiKey))
    ensures ContextUsable(r) ==> r.isConnected && r.reconnectAttempt == 0 && r.pendingReconnect.None?
    ensures !ContextUsable(r) ==> !r.isConnected && r.pendingReconnect == Some(ReconnectDelay(s.reconnectAttempt))
  {
    StartSocket(s.(context := Some(Connection(baseUrl, apiKey)), shouldReconnect := true, pendingReconnect := None))
  }

  /** `disconnect`: turns reconnecting off, cancels the timer, the receive loop
      and the socket, and marks the client disconnected. The cancelled loop
      stays live until its pending receive ends. */
  function Disconnect(s: ClientState): (r: ClientState)
    ensures !r.shouldReconnect && !r.isConnected
    ensures r.pendingReconnect.None? && r.currentLoop.None? && r.socket.None?
    ensures r.liveLoops == s.liveLoops && r.reconnectAttempt == s.reconnectAttempt && r.context == s.context
  {
    s.(shouldReconnect := false, pendingReconnect := None, currentLoop := None, socket := None, isConnected := false)
  }

  /** The reconnect timer elapses: if it is still scheduled and reconnecting
      is still enabled, a socket is started. */
  function ReconnectFired(s: ClientState): (r: ClientState)
    ensures s.pendingReconnect.None? ==> r == s
    ensures s.pendingReconnect.Some? && !s.shouldReconnect ==> r == s.(pendingReconnect := None)
    ensures s.pendingReconnect.Some? && s.shouldReconnect ==> r == StartSocket(s.(pendingReconnect := None))
  {
    if s.pendingReconnect.None? then s
    else
      var s1 := s.(pendingReconnect := None);
      if s1.shouldReconnect then StartSocket(s1) else s1
  }

  /** Loop `loop` receives a frame: the decoded event is emitted, and an
      undecodable frame is dropped; the state is unchanged, except that a
      cancelled loop ends once it has handled the frame. */
  function FrameReceived(s: ClientState, loop: nat, f: Frame): (r: (ClientState, Option<Event>))
    ensures loop !in s.liveLoops ==> r == (s, None)
    ensures loop in s.liveLoops ==> r.1 == FrameEvent(f)
    ensures s.currentLoop == Some(loop) ==> r.0 == s
    ensures s.currentLoop != Some(loop) ==> r.0 == s.(liveLoops := s.liveLoops - {loop})
  {
    if loop !in s.liveLoops then (s, None)
    else if s.currentLoop == Some(loop) then (s, FrameEvent(f))
    else (s.(liveLoops := s.liveLoops - {loop}), FrameEvent(f))
  }

  /** The receive of loop `loop` fails, as the source handles it: whichever
      loop it was, the client is marked disconnected and a reconnect is
      scheduled. */
  function ReceiveFailedAsWritten(s: ClientState, loop: nat): (r: ClientState)
    ensures loop !in s.liveLoops ==> r == s
    ensures loop in s.liveLoops ==> !r.isConnected && loop !in r.liveLoops
    ensures loop in s.liveLoops && s.shouldReconnect ==> r.pendingReconnect == Some(ReconnectDelay(s.reconnectAttempt))
  {
    if loop !in s.liveLoops then s
    else ScheduleReconnect(s.(isConnected := false, liveLoops := s.liveLoops - {loop}))
  }

  /** The receive of loop `loop` fails; a loop that has been superseded only
      ends, and only the failure of the current loop disconnects the client and
      schedules a reconnect. */
  function ReceiveFailed(s: ClientState, loop: nat): (r: ClientState)
    ensures loop !in s.liveLoops ==> r == s
    ensures loop in s.liveLoops && s.currentLoop != Some(loop) ==> r == s.(liveLoops := s.liveLoops - {loop})
    ensures loop in s.liveLoops && s.currentLoop == Some(loop) ==> r == ReceiveFailedAsWritten(s, loop)
  {
    if loop in s.liveLoops && s.currentLoop != Some(loop) then s.(liveLoops := s.liveLoops - {loop})
    else ReceiveFailedAsWritten(s, loop)
  }

  /** The connection flag tells the truth about the receive loop, a pending
      reconnect never coexists with a healthy loop, the timer is off whenever
      reconnecting is off, and the pending delay is the backoff of the attempt
      that scheduled it. */
  ghost predicate Coherent(s: ClientState) {
    && (s.isConnected ==> CurrentLoopLive(s) && s.socket.Some?)
    && (CurrentLoopLive(s) && ContextUsable(s) ==> s.isConnected)
    && (s.pendingReconnect.Some? && ContextUsable(s) ==> !CurrentLoopLive(s))
    && (!s.shouldReconnect ==> s.pendingReconnect.None?)
    && (s.pendingReconnect.Some? ==>
          s.reconnectAttempt >= 1 && s.pendingReconnect.value == ReconnectDelay(s.reconnectAttempt - 1))
    && (s.currentLoop.Some? ==> s.currentLoop.value < s.nextLoop)
    && (forall g :: g in s.liveLoops ==> g < s.nextLoop)
  }

  lemma IdleCoherent()
    ensures Coherent(Idle)
  {
  }

  datatype ClientInput =
    | ConnectTo(baseUrl: Url, apiKey: string)
    | DisconnectNow
    | TimerElapsed
    | FrameArrived(loop: nat, frame: Frame)
    | ReceiveError(loop: nat)

  /** One transition of the corrected client, with the event it emits. */
  function Step(s: ClientState, input: ClientInput): (r: (ClientState, Option<Event>))
    requires Coherent(s)
    ensures Coherent(r.0)
    ensures r.1.Some? ==> input.FrameArrived? && r.1 == FrameEvent(input.frame)
  {
    match input
    case ConnectTo(u, k) => (Connect(s, u, k), None)
    case DisconnectNow => (Disconnect(s), None)
    case TimerElapsed => (ReconnectFired(s), None)
    case FrameArrived(g, f) => FrameReceived(s, g, f)
    case ReceiveError(g) => (ReceiveFailed(s, g), None)
  }

  /** After `disconnect`, no input but a new `connect` can reconnect the
      client, schedule a reconnect or mark it connected. */
  lemma {:induction false} StaysDisconnected(s: ClientState, inputs: seq<ClientInput>)
    requires Coherent(s) && !s.shouldReconnect && !s.isConnected
    requires forall i :: 0 <= i < |inputs| ==> !inputs[i].ConnectTo?
    ensures var r := Run(s, inputs).0;
      && !r.shouldReconnect && !r.isConnected && r.pendingReconnect.None?
      && r.nextLoop == s.nextLoop && r.reconnectAttempt == s.reconnectAttempt
    decreases |inputs|
  {
    if |inputs| > 0 {
      var s1 := Step(s, inputs[0]).0;
      assert !s1.shouldReconnect && !s1.isConnected;
      assert s1.nextLoop == s.nextLoop && s1.reconnectAttempt == s.reconnectAttempt;
      StaysDisconnected(s1, inputs[1..]);
    }
  }

  /** The corrected client over a sequence of inputs, with everything it emits. */
  function Run(s: ClientState, inputs: seq<ClientInput>): (r: (ClientState, seq<Event>))
    requires Coherent(s)
    ensures Coherent(r.0)
    ensures |r.1| <= |inputs|
    decreases |inputs|
  {
    if |inputs| == 0 then (s, [])
    else
      var (s1, out) := Step(s, inputs[0]);
      var (s2, rest) := Run(s1, inputs[1..]);
      (s2, (if out.Some? then [out.value] else []) + rest)
  }

  /** As written, connecting twice and then seeing the superseded loop's
      receive end in an error leaves the client marked disconnected with a
      reconnect pending although its current loop is healthy; when that timer
      fires the healthy socket is replaced, its loop errors in turn, and the
      cycle repeats. */
  lemma StaleLoopErrorAsWritten(base: Url, apiKey: string)
    requires base.scheme == Some("https")
    ensures var s1 := Connect(Connect(Idle, base, apiKey), base, apiKey);
      var s2 := ReceiveFailedAsWritten(s1, 0);
      var s3 := ReconnectFired(s2);
      var s4 := ReceiveFailedAsWritten(s3, 1);
      && Coherent(s1)
      && !Coherent(s2) && CurrentLoopLive(s2) && !s2.isConnected && s2.pendingReconnect == Some(1)
      && s3.isConnected && s3.currentLoop == Some(2)
      && !s4.isConnected && s4.pendingReconnect == Some(1) && CurrentLoopLive(s4)
  {
    var s0 := Connect(Idle, base, apiKey);
    assert ContextUsable(s0);
  }

  /** With the correction the same inputs leave the client connected on its
      current loop with nothing scheduled. */
  lemma StaleLoopErrorIgnored(base: Url, apiKey: string)
    requires base.scheme == Some("https")
    ensures var s1 := Connect(Connect(Idle, base, apiKey), base, apiKey);
      var s2 := ReceiveFailed(s1, 0);
      s2.isConnected && s2.pendingReconnect.None? && s2.currentLoop == Some(1) && Coherent(s2)
  {
    var s0 := Connect(Idle, base, apiKey);
    assert ContextUsable(s0);
  }
}
