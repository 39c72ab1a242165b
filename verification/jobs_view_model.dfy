/** `JobsViewModel`: the jobs screen's state. It validates the settings,
    owns one API client and one streaming subscription per connection
    context, polls the job list every five seconds, merges push events with
    the event reducer, and runs the convert and skip commands. Each
    asynchronous step is one transition here; a fetch is split into its start
    and its completion so that overlapping fetches can be expressed. */
module JobsViewModel {
  import opened Wrappers
  import opened Urls
  import opened JobModel
  import WebSocketClient
  import JobEventReducer
  import opened ApiClient

  /** The connection the screen was started with. */
  datatype Context = Context(baseUrl: Url, apiKey: string)

  /** The view model's fields. `subscribed` is whether the event
      subscription is installed and `polling` whether the polling task runs;
      `socket` is the shared streaming client. */
  datatype ViewState = ViewState(
    jobs: seq<Job>,
    isLoading: bool,
    errorMessage: Option<string>,
    context: Option<Context>,
    client: Option<Configuration>,
    subscribed: bool,
    polling: bool,
    socket: WebSocketClient.ClientState)

  const Initial: ViewState := ViewState([], false, None, None, None, false, false, WebSocketClient.Idle)

  const InvalidServerMessage: string := "Set a valid server URL in Settings."
  const MissingKeyMessage: string := "Set an API key in Settings."

  // ----- start and stop -----

  /** The settings check at the head of `start`: the URL text must be
      non-empty and parse, then the key must be non-empty. `parsed` is what
      parsing the URL text produced. */
  function Validate(serverUrlText: string, parsed: Option<Url>, apiKey: string): (r: Result<Context, string>)
    ensures r.Success? <==> parsed.Some? && serverUrlText != [] && apiKey != []
    ensures r.Success? ==> r.value == Context(parsed.value, apiKey)
    ensures (parsed.None? || serverUrlText == []) ==> r == Failure(InvalidServerMessage)
    ensures parsed.Some? && serverUrlText != [] && apiKey == [] ==> r == Failure(MissingKeyMessage)
  {
    if parsed.None? || serverUrlText == [] then Failure(InvalidServerMessage)
    else if apiKey == [] then Failure(MissingKeyMessage)
    else Success(Context(parsed.value, apiKey))
  }

  /** `stop` as written: cancels polling and the subscription and
      disconnects the socket, but keeps the remembered context. */
  function StopAsWritten(s: ViewState): (r: ViewState)
    ensures !r.polling && !r.subscribed
    ensures !r.socket.shouldReconnect && !r.socket.isConnected && r.socket.pendingReconnect.None?
    ensures r.context == s.context && r.client == s.client && r.jobs == s.jobs
  {
    s.(polling := false, subscribed := false, socket := WebSocketClient.Disconnect(s.socket))
  }

  /** `stop`, corrected to forget the context as well, so that a later start
      with the same settings starts again. */
  function Stop(s: ViewState): (r: ViewState)
    ensures !r.polling && !r.subscribed && r.context.None?
    ensures !r.socket.shouldReconnect && !r.socket.isConnected && r.socket.pendingReconnect.None?
    ensures r.client == s.client && r.jobs == s.jobs && r.errorMessage == s.errorMessage
  {
    StopAsWritten(s).(context := None)
  }

  /** What `start` installs after stopping: the context, a client for it, the
      subscription, a socket connection and the polling task. */
  function Install(s: ViewState, c: Context): (r: ViewState)
    ensures r.context == Some(c) && r.client == Some(Configuration(c.baseUrl, c.apiKey))
    ensures r.subscribed && r.polling
    ensures r.socket.shouldReconnect && r.socket.context == Some(WebSocketClient.Connection(c.baseUrl, c.apiKey))
    ensures r.jobs == s.jobs && r.errorMessage == s.errorMessage && r.isLoading == s.isLoading
  {
    s.(context := Some(c), client := Some(Configuration(c.baseUrl, c.apiKey)),
       subscribed := true, polling := true,
       socket := WebSocketClient.Connect(s.socket, c.baseUrl, c.apiKey))
  }

  /** `start` as written, stopping with `StopAsWritten`. */
  function StartAsWritten(s: ViewState, serverUrlText: string, parsed: Option<Url>, apiKey: string): (r: ViewState)
    ensures Validate(serverUrlText, parsed, apiKey).Failure? ==>
      r == s.(errorMessage := Some(Validate(serverUrlText, parsed, apiKey).error))
    ensures Validate(serverUrlText, parsed, apiKey).Success? && s.context == Some(Validate(serverUrlText, parsed, apiKey).value) ==> r == s
    ensures Validate(serverUrlText, parsed, apiKey).Success? && s.context != Some(Validate(serverUrlText, parsed, apiKey).value) ==>
      var c := Validate(serverUrlText, parsed, apiKey).value;
      && r.polling && r.subscribed && r.context == Some(c)
      && r.client == Some(Configuration(c.baseUrl, c.apiKey))
      && r.socket.shouldReconnect && r.socket.context == Some(WebSocketClient.Connection(c.baseUrl, c.apiKey))
      && r.jobs == s.jobs && r.errorMessage == s.errorMessage && r.isLoading == s.isLoading
  {
    match Validate(serverUrlText, parsed, apiKey)
    case Failure(m) => s.(errorMessage := Some(m))
    case Success(c) => if s.context == Some(c) then s else Install(StopAsWritten(s), c)
  }

  /** `start`, with the corrected `Stop`. A start with the context already
      running changes nothing; any other valid start leaves the screen
      polling, subscribed and connected for the new context. */
  function Start(s: ViewState, serverUrlText: string, parsed: Option<Url>, apiKey: string): (r: ViewState)
    ensures Validate(serverUrlText, parsed, apiKey).Failure? ==>
      r == s.(errorMessage := Some(Validate(serverUrlText, parsed, apiKey).error))
    ensures Validate(serverUrlText, parsed, apiKey).Success? && s.context == Some(Validate(serverUrlText, parsed, apiKey).value) ==> r == s
    ensures Validate(serverUrlText, parsed, apiKey).Success? && s.context != Some(Validate(serverUrlText, parsed, apiKey).value) ==>
      var c := Validate(serverUrlText, parsed, apiKey).value;
      && r.polling && r.subscribed && r.context == Some(c)
      && r.client == Some(Configuration(c.baseUrl, c.apiKey))
      && r.socket.shouldReconnect && r.socket.context == Some(WebSocketClient.Connection(c.baseUrl, c.apiKey))
      && r.jobs == s.jobs && r.errorMessage == s.errorMessage && r.isLoading == s.isLoading
  {
    match Validate(serverUrlText, parsed, apiKey)
    case Failure(m) => s.(errorMessage := Some(m))
    case Success(c) => if s.context == Some(c) then s else Install(Stop(s), c)
  }

  /** Starting twice with the same settings is the same as starting once. */
  lemma StartIdempotent(s: ViewState, serverUrlText: string, parsed: Option<Url>, apiKey: string)
    ensures var s1 := Start(s, serverUrlText, parsed, apiKey);
      Start(s1, serverUrlText, parsed, apiKey) == s1
  {
  }

  /** Stopping twice is the same as stopping once. */
  lemma StopIdempotent(s: ViewState)
    ensures Stop(Stop(s)) == Stop(s)
    ensures StopAsWritten(StopAsWritten(s)) == StopAsWritten(s)
  {
  }

  /** The screen is live: polling, subscribed and with a socket that keeps
      reconnecting. */
  predicate Live(s: ViewState) {
    s.polling && s.subscribed && s.socket.shouldReconnect
  }

  /** The screen appearing, disappearing and appearing again with the same
      settings, as written: the second start sees the kept context and
      returns early, so the screen stays dead. */
  lemma RestartAfterStopAsWritten(serverUrlText: string, u: Url, apiKey: string)
    requires serverUrlText != [] && apiKey != []
    ensures var s1 := StartAsWritten(Initial, serverUrlText, Some(u), apiKey);
      var s3 := StartAsWritten(StopAsWritten(s1), serverUrlText, Some(u), apiKey);
      Live(s1) && !Live(s3) && !s3.polling && !s3.subscribed && !s3.socket.shouldReconnect
  {
    var s1 := StartAsWritten(Initial, serverUrlText, Some(u), apiKey);
    assert s1.context == Some(Context(u, apiKey));
    var s2 := StopAsWritten(s1);
    assert StartAsWritten(s2, serverUrlText, Some(u), apiKey) == s2;
  }

  /** With the corrected stop, a valid start after any stop brings the screen
      back to life. */
  lemma RestartAfterStop(s: ViewState, serverUrlText: string, u: Url, apiKey: string)
    requires serverUrlText != [] && apiKey != []
    ensures Live(Start(Stop(s), serverUrlText, Some(u), apiKey))
  {
  }

  // ----- events -----

  /** An event delivered through the subscription: merged by the reducer
      while subscribed, dropped otherwise. */
  function ReceiveEvent(s: ViewState, e: WebSocketClient.Event): (r: ViewState)
    ensures !s.subscribed ==> r == s
    ensures s.subscribed ==> r.jobs == JobEventReducer.Apply(e, s.jobs) && r == s.(jobs := r.jobs)
  {
    if s.subscribed then s.(jobs := JobEventReducer.Apply(e, s.jobs)) else s
  }

  /** After a stop, events change nothing until the next start. */
  lemma EventsIgnoredAfterStop(s: ViewState, e: WebSocketClient.Event)
    ensures ReceiveEvent(Stop(s), e) == Stop(s)
  {
  }

  // ----- fetching the list -----

  /** Newest first: creation instants never increase along the list. */
  predicate SortedNewestFirst(jobs: seq<Job>) {
    forall i, k :: 0 <= i < k < |jobs| ==> jobs[i].createdAt >= jobs[k].createdAt
  }

  /** Inserts a job before the first job not newer than it. */
  function InsertNewestFirst(j: Job, jobs: seq<Job>): (r: seq<Job>)
    requires SortedNewestFirst(jobs)
    ensures SortedNewestFirst(r)
    ensures multiset(r) == multiset(jobs) + multiset{j}
    ensures |r| == |jobs| + 1
    ensures r[0] == j || (|jobs| > 0 && r[0] == jobs[0])
  {
    if |jobs| == 0 || j.createdAt >= jobs[0].createdAt then [j] + jobs
    else
      var rest := InsertNewestFirst(j, jobs[1..]);
      assert jobs == [jobs[0]] + jobs[1..];
      [jobs[0]] + rest
  }

  /** The list order the screen shows: by creation instant, newest first;
      jobs created at the same instant keep the server's order. */
  function SortNewestFirst(jobs: seq<Job>): (r: seq<Job>)
    ensures SortedNewestFirst(r)
    ensures multiset(r) == multiset(jobs)
    ensures |r| == |jobs|
  {
    if |jobs| == 0 then []
    else
      assert jobs == [jobs[0]] + jobs[1..];
      InsertNewestFirst(jobs[0], SortNewestFirst(jobs[1..]))
  }

  /** A list already in order is left as it is. */
  lemma {:induction false} SortKeepsSorted(jobs: seq<Job>)
    requires SortedNewestFirst(jobs)
    ensures SortNewestFirst(jobs) == jobs
  {
    if |jobs| > 0 {
      assert SortedNewestFirst(jobs[1..]);
      SortKeepsSorted(jobs[1..]);
      assert jobs == [jobs[0]] + jobs[1..];
    }
  }

  /** The start of `fetchJobs`: without a client nothing happens; otherwise
      the screen shows it is loading and the list request is sent. */
  function FetchStarted(s: ViewState): (r: (ViewState, Option<Request>))
    ensures s.client.None? <==> r.1.None?
    ensures s.client.None? ==> r.0 == s
    ensures s.client.Some? ==> r.0 == s.(isLoading := true) && r.1 == Some(RequestFor(s.client.value, ListJobs))
  {
    match s.client
    case None => (s, None)
    case Some(config) => (s.(isLoading := true), Some(RequestFor(config, ListJobs)))
  }

  /** The end of `fetchJobs`: loading is over; a listed collection replaces
      the jobs, newest first, and clears the error; a failure keeps the jobs
      and shows the error's description. */
  function FetchFinished(s: ViewState, result: Result<seq<Job>, ApiClientError>): (r: ViewState)
    ensures !r.isLoading
    ensures result.Success? ==> SortedNewestFirst(r.jobs) && multiset(r.jobs) == multiset(result.value) && r.errorMessage.None?
    ensures result.Failure? ==> r.jobs == s.jobs && r.errorMessage == Some(Description(result.error))
    ensures r.context == s.context && r.client == s.client && r.socket == s.socket
    ensures r.polling == s.polling && r.subscribed == s.subscribed
  {
    match result
    case Success(listed) => s.(isLoading := false, jobs := SortNewestFirst(listed), errorMessage := None)
    case Failure(e) => s.(isLoading := false, errorMessage := Some(Description(e)))
  }

  /** `fetchJobs` (and `refreshNow`) run without interruption: the outcome
      of the list call is what the server answered. */
  function FetchJobs(s: ViewState, o: Outcome<JobsResponse>): (r: (ViewState, Option<Request>))
    ensures s.client.None? ==> r == (s, None)
    ensures s.client.Some? ==>
      var call := ListJobsCall(s.client.value, o);
      r.1 == Some(call.request) && r.0 == FetchFinished(s, call.result)
  {
    match s.client
    case None => (s, None)
    case Some(config) =>
      var call := ListJobsCall(config, o);
      (FetchFinished(FetchStarted(s).0, call.result), Some(call.request))
  }

  /** One turn of the polling loop: a fetch while polling is on; once the
      task is cancelled the loop has ended. */
  function PollTick(s: ViewState, o: Outcome<JobsResponse>): (r: (ViewState, Option<Request>))
    ensures !s.polling ==> r == (s, None)
    ensures s.polling ==> r == FetchJobs(s, o)
  {
    if s.polling then FetchJobs(s, o) else (s, None)
  }

  /** A tick after a stop fetches nothing. */
  lemma NoPollingAfterStop(s: ViewState, o: Outcome<JobsResponse>)
    ensures PollTick(Stop(s), o) == (Stop(s), None)
  {
  }

  // ----- commands -----

  /** The view model's own upsert: replaces the job with the same
      identifier in place, or puts the job at the front. */
  function ReplaceOrPrepend(job: Job, jobs: seq<Job>): (r: seq<Job>)
    ensures HasId(jobs, job.id) ==>
      && |r| == |jobs| && r[FirstIndex(jobs, job.id).value] == job
      && forall k :: 0 <= k < |jobs| && k != FirstIndex(jobs, job.id).value ==> r[k] == jobs[k]
    ensures !HasId(jobs, job.id) ==> |r| == |jobs| + 1 && r[0] == job && r[1..] == jobs
  {
    match FirstIndex(jobs, job.id)
    case Some(i) => jobs[i := job]
    case None => [job] + jobs
  }

  /** The command upsert agrees with the event reducer: for a known job it
      replaces like a `completed` event, for a new job it prepends like a
      `new_file` event. */
  lemma ReplaceOrPrependAgreesWithReducer(job: Job, jobs: seq<Job>)
    ensures HasId(jobs, job.id) ==> ReplaceOrPrepend(job, jobs) == JobEventReducer.Apply(WebSocketClient.Event.Completed(job), jobs)
    ensures !HasId(jobs, job.id) ==> ReplaceOrPrepend(job, jobs) == JobEventReducer.Apply(WebSocketClient.NewFile(job), jobs)
  {
  }

  /** The result of a command: a returned job is upserted (the error
      message is left as it was); a failure shows its description. */
  function CommandFinished(s: ViewState, result: Result<Job, ApiClientError>): (r: ViewState)
    ensures result.Success? ==> r == s.(jobs := ReplaceOrPrepend(result.value, s.jobs))
    ensures result.Failure? ==> r == s.(errorMessage := Some(Description(result.error)))
  {
    match result
    case Success(job) => s.(jobs := ReplaceOrPrepend(job, s.jobs))
    case Failure(e) => s.(errorMessage := Some(Description(e)))
  }

  /** `convert(jobID:)`: without a client nothing is sent; otherwise the
      convert request is sent and its result applied. */
  function Convert(s: ViewState, id: string, o: Outcome<JobActionResponse>): (r: (ViewState, Option<Request>))
    ensures s.client.None? ==> r == (s, None)
    ensures s.client.Some? ==>
      && r.1 == Some(ConvertJobCall(s.client.value, id, o).request)
      && r.1.value.httpMethod == "POST"
      && r.0 == CommandFinished(s, ConvertJobCall(s.client.value, id, o).result)
  {
    match s.client
    case None => (s, None)
    case Some(config) =>
      var call := ConvertJobCall(config, id, o);
      (CommandFinished(s, call.result), Some(call.request))
  }

  /** `skip(jobID:)`, the same shape with the skip request. */
  function Skip(s: ViewState, id: string, o: Outcome<JobActionResponse>): (r: (ViewState, Option<Request>))
    ensures s.client.None? ==> r == (s, None)
    ensures s.client.Some? ==>
      && r.1 == Some(SkipJobCall(s.client.value, id, o).request)
      && r.1.value.httpMethod == "POST"
      && r.0 == CommandFinished(s, SkipJobCall(s.client.value, id, o).result)
  {
    match s.client
    case None => (s, None)
    case Some(config) =>
      var call := SkipJobCall(config, id, o);
      (CommandFinished(s, call.result), Some(call.request))
  }

  /** A command the server answers with 200 and a job puts that job on the
      screen, whether or not it was listed before. */
  lemma CommandShowsReturnedJob(s: ViewState, id: string, text: Option<string>, response: JobActionResponse)
    requires s.client.Some?
    ensures HasId(Convert(s, id, HttpResponse(200, text, Success(response))).0.jobs, response.job.id)
    ensures HasId(Skip(s, id, HttpResponse(200, text, Success(response))).0.jobs, response.job.id)
  {
    var r := ReplaceOrPrepend(response.job, s.jobs);
    if HasId(s.jobs, response.job.id) {
      var i := FirstIndex(s.jobs, response.job.id).value;
      assert r[i].id == response.job.id;
    } else {
      assert r[0].id == response.job.id;
    }
  }

  /** A listed pending job followed by a progress report of 34.2 leaves one
      job, now processing at 34.2. */
  lemma PollThenProgress(serverUrlText: string, u: Url, apiKey: string, j: Job, text: Option<string>)
    requires serverUrlText != [] && apiKey != [] && j.status == Pending
    ensures var s1 := Start(Initial, serverUrlText, Some(u), apiKey);
      var s2 := PollTick(s1, HttpResponse(200, text, Success(JobsResponse([j])))).0;
      var s3 := ReceiveEvent(s2, WebSocketClient.Progress(j.id, 34.2));
      s3.jobs == [j.(status := Processing, progress := 34.2)] && s3.errorMessage.None?
  {
    var s1 := Start(Initial, serverUrlText, Some(u), apiKey);
    var s2 := PollTick(s1, HttpResponse(200, text, Success(JobsResponse([j])))).0;
    assert SortNewestFirst([j]) == [j];
    assert s2.jobs == [j];
    assert FirstIndex([j], j.id) == Some(0);
  }
}
