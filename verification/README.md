# vertd client core in Dafny

A model of the core of **vertd**, an iOS client for a video-transcoding
server. The client lists transcoding jobs, keeps that list current from a
push stream and a five-second poll, lets the user convert or skip a job
that waits for approval, and uploads new videos to a presigned URL.

The model is functional: every entity is an immutable datatype and every
operation a pure function from state and inputs to state and outputs.
What the network, the JSON decoder, Foundation's URL parser or a timer
would produce is passed in as a parameter, so each asynchronous step is
one transition.

| file | module | models |
|---|---|---|
| `wrappers.dfy` | `Wrappers` | `Option`, `Result`, `Unit` |
| `urls.dfy` | `Urls` | URLs as records, `appending(path:)`, ASCII lower-casing |
| `job.dfy` | `JobModel` | `JobStatus`, `Job` and its parts, field-wise equality, lookups by identifier |
| `websocket_client.dfy` | `WebSocketClient` | push events and their decoding, the stream URL, backoff, the connection state machine |
| `job_event_reducer.dfy` | `JobEventReducer` | merging one push event into the job list |
| `api_client.dfy` | `ApiClient` | error kinds and texts, requests, response classification, the operations |
| `jobs_view_model.dfy` | `JobsViewModel` | start/stop, polling, event merging, convert and skip |
| `upload_view_model.dfy` | `UploadViewModel` | the upload phase machine and `reset` |
| `upload_service.dfy` | `UploadService` | the task-identifier registry, progress and completion callbacks |

Abstractions used throughout:

- A `Date` is an `int` instant and a `Double` is a `real`.
- A URL is a record of scheme, authority, path and query items. `URL(string:)` is an input (`parsed: Option<Url>`).
- An HTTP exchange is an `Outcome`. It is a transport failure, a non-HTTP response, or a status with the body text (`None` when the body is not UTF-8) and the body as decoded.
- The push channel's frames arrive as already-parsed envelopes.
- Receive loops are numbered, so a superseded loop can be told apart from the current one.

## Model

| member | source | states |
|---|---|---|
| `Urls.AppendingPath` | vertd/Services/ApiClient.swift:153-158 | appending a component keeps scheme, authority and query, and extends the path with exactly one separator between base and component |
| `Urls.LowerIdempotent` | vertd/Services/WebSocketClient.swift:173 | lower-casing twice is lower-casing once |
| `JobModel.ParseStatus` | vertd/Models/Job.swift:3-10 | a raw status string parses to the status with that raw value, and fails exactly when no status has it |
| `JobModel.ParseRawValue` | vertd/Models/Job.swift:3-10 | every status round-trips through its raw value |
| `JobModel.AllStatusesComplete` | vertd/Models/Job.swift:3-10 | the list of all cases contains every status, each once |
| `JobModel.IsPendingApproval` | vertd/Models/Job.swift:87-89 | a job awaiting approval is never terminal |
| `JobModel.IsTerminal` | vertd/Models/Job.swift:91-98 | terminal exactly when the status is none of pending, confirmed, processing |
| `JobModel.Update` | vertd/Models/Job.swift:62-73 | assigning any one of the seven mutable fields keeps the job's identifier, file and creation instant and gives that field the assigned value |
| `JobModel.UpdateTouchesOneField` | vertd/Models/Job.swift:62-73 | assigning a field and then assigning its old value back restores the job, so nothing else changed |
| `JobModel.FileInfoEqual` | vertd/Models/Job.swift:12-24 | field-wise equality of file information is structural equality |
| `JobModel.ProbeEqual` | vertd/Models/Job.swift:26-44 | field-wise equality of probe results is structural equality |
| `JobModel.ResultEqual` | vertd/Models/Job.swift:46-60 | field-wise equality of transcode results is structural equality |
| `JobModel.JobEqual` | vertd/Models/Job.swift:62-85 | field-wise equality of jobs is structural equality |
| `JobModel.FirstIndex` | vertd/ViewModels/JobEventReducer.swift:13 | the index found holds the identifier and no earlier job does; there is none exactly when no job has the identifier |
| `JobModel.FirstIndexUnique` | vertd/ViewModels/JobEventReducer.swift:26 | in a list with unique identifiers the first match is the only match |
| `WebSocketClient.TypeName` | vertd/Services/WebSocketClient.swift:14-31 | every event kind has one of the five known type strings |
| `WebSocketClient.Decode` | vertd/Services/WebSocketClient.swift:11-35 | a known type with its required fields decodes to the event of that type built from exactly those fields; a missing field is an invalid payload; any other type is an unknown type naming it |
| `WebSocketClient.Encode` | vertd/Services/WebSocketClient.swift:37-49 | the envelope of an event has the event's type and carries its payload in the required fields |
| `WebSocketClient.DecodeEncode` | vertd/Services/WebSocketClient.swift:11-49 | every event survives encoding and decoding |
| `WebSocketClient.DecodeIgnoresExtraFields` | vertd/Services/WebSocketClient.swift:11-35 | decoding depends only on the type and the required fields |
| `WebSocketClient.FrameEvent` | vertd/Services/WebSocketClient.swift:124-139 | a text or binary frame yields an event exactly when its envelope decodes, and then yields that event; other frames yield nothing |
| `WebSocketClient.StreamScheme` | vertd/Services/WebSocketClient.swift:173-182 | https and wss map to wss, http and ws to ws, in any letter case; every other scheme is rejected |
| `WebSocketClient.StreamSchemeIgnoresCase` | vertd/Services/WebSocketClient.swift:173 | the scheme mapping does not see letter case |
| `WebSocketClient.StreamPath` | vertd/Services/WebSocketClient.swift:184-188 | the stream path ends in `/api/ws` and what precedes it is the base path without one trailing slash |
| `WebSocketClient.StreamPathTrailingSlash` | vertd/Services/WebSocketClient.swift:184-188 | a base path with or without a trailing slash gives the same stream path |
| `WebSocketClient.MakeStreamUrl` | vertd/Services/WebSocketClient.swift:168-196 | the stream URL keeps the host, maps the scheme, extends the path and has the single query item `api_key`; it fails with `invalidURL` exactly when the scheme is unsupported |
| `WebSocketClient.ReconnectDelay` | vertd/Services/WebSocketClient.swift:158 | the delay is between 1 and 30 seconds, at most 2^attempt, and either 2^attempt or the cap |
| `WebSocketClient.ReconnectDelayMonotone` | vertd/Services/WebSocketClient.swift:154-159 | later attempts never wait less |
| `WebSocketClient.ReconnectDelaySaturates` | vertd/Services/WebSocketClient.swift:158 | from the sixth attempt on the delay is the 30-second cap |
| `WebSocketClient.ScheduleReconnect` | vertd/Services/WebSocketClient.swift:154-166 | nothing happens unless reconnecting is enabled; otherwise one timer with the backoff delay is pending and the attempt counter grows by one; the connection flag, loops, context, socket, reconnect switch and next loop number are kept |
| `WebSocketClient.StartSocket` | vertd/Services/WebSocketClient.swift:97-118 | with a usable context the client is connected on a new, never-used loop number (the next number advances) with the attempt counter reset and the context kept; an unusable context disconnects and schedules a reconnect; no context changes nothing |
| `WebSocketClient.Connect` | vertd/Services/WebSocketClient.swift:79-84 | connecting remembers the context and enables reconnecting, and ends connected with no timer, or disconnected with a timer when the URL cannot be built |
| `WebSocketClient.Disconnect` | vertd/Services/WebSocketClient.swift:86-95 | disconnecting turns reconnecting off and clears the timer, the loop and the socket |
| `WebSocketClient.ReconnectFired` | vertd/Services/WebSocketClient.swift:161-165 | an elapsed timer starts a socket only if it is still scheduled and reconnecting is still enabled |
| `WebSocketClient.FrameReceived` | vertd/Services/WebSocketClient.swift:120-140 | a live loop emits what the frame decodes to; a dead loop emits nothing; a superseded loop ends after the frame |
| `WebSocketClient.ReceiveFailedAsWritten` | vertd/Services/WebSocketClient.swift:141-145 | as written, a receive error from any live loop disconnects the client and schedules a reconnect |
| `WebSocketClient.ReceiveFailed` | vertd/Services/WebSocketClient.swift:141-145 | corrected: a superseded loop's error only ends that loop; the current loop's error behaves as written |
| `WebSocketClient.IdleCoherent` | vertd/Services/WebSocketClient.swift:60-72 | a fresh client satisfies the connection invariant |
| `WebSocketClient.Step` | vertd/Services/WebSocketClient.swift:79-166 | every transition of the corrected client preserves the connection invariant, and only frames emit events |
| `WebSocketClient.Run` | vertd/Services/WebSocketClient.swift:79-166 | any input sequence keeps the invariant and emits at most one event per input |
| `WebSocketClient.StaysDisconnected` | vertd/Services/WebSocketClient.swift:86-95 | after a disconnect no input but a new connect reconnects, schedules a timer or marks the client connected |
| `WebSocketClient.StaleLoopErrorAsWritten` | vertd/Services/WebSocketClient.swift:103-145 | as written, connecting twice and then the old loop's error leaves a healthy loop marked disconnected with a reconnect pending, and the cycle repeats |
| `WebSocketClient.StaleLoopErrorIgnored` | vertd/Services/WebSocketClient.swift:141-145 | corrected, the same inputs leave the client connected on its current loop with nothing scheduled |
| `JobEventReducer.StatusAfterProgress` | vertd/ViewModels/JobEventReducer.swift:15-17 | pending and confirmed become processing; every other status is kept |
| `JobEventReducer.MoveToFront` | vertd/ViewModels/JobEventReducer.swift:27-31 | the replaced job is first and the others keep their order |
| `JobEventReducer.Upsert` | vertd/ViewModels/JobEventReducer.swift:25-40 | a known identifier is replaced in place or moved to the front; an unknown one is appended or inserted at the front; nothing else moves |
| `JobEventReducer.UpsertIds` | vertd/ViewModels/JobEventReducer.swift:25-40 | an upsert adds exactly the job's identifier to the identifier set and keeps identifiers unique |
| `JobEventReducer.ApplyProgress` | vertd/ViewModels/JobEventReducer.swift:12-17 | the named job takes the progress and the status after progress; no other job changes; an unknown identifier changes nothing |
| `JobEventReducer.ApplySkipped` | vertd/ViewModels/JobEventReducer.swift:19-21 | the named job becomes skipped; no other job changes; an unknown identifier changes nothing |
| `JobEventReducer.Apply` | vertd/ViewModels/JobEventReducer.swift:4-23 | the list grows by one exactly when an upsert brings a new identifier, and never shrinks |
| `JobEventReducer.ApplyIds` | vertd/ViewModels/JobEventReducer.swift:4-23 | an event adds at most its job's identifier, removes none, and keeps identifiers unique |
| `JobEventReducer.ApplyIdempotent` | vertd/ViewModels/JobEventReducer.swift:4-23 | applying the same event twice is applying it once |
| `JobEventReducer.RemoveFirstIsWithout` | vertd/ViewModels/JobEventReducer.swift:26-31 | with unique identifiers, removing the first match is filtering the identifier out |
| `JobEventReducer.NewFileMovesToFront` | vertd/ViewModels/JobEventReducer.swift:25-36 | a new-file event gives the job followed by the other jobs in their order |
| `JobEventReducer.NewFileMembers` | vertd/ViewModels/JobEventReducer.swift:6-7 | after a new-file event the list holds the event's job and exactly the earlier jobs of other identifiers |
| `JobEventReducer.ApplyLookup` | vertd/ViewModels/JobEventReducer.swift:4-23 | seen as a map from identifier to job, an event changes only its own identifier, to the job the event describes |
| `ApiClient.NatText` | vertd/Services/ApiClient.swift:24 | the status code is written as decimal digits without a leading zero that denote the number |
| `ApiClient.Description` | vertd/Services/ApiClient.swift:15-30 | the three fixed texts; "Request failed with status ", the decimal code, ": " and the message for an HTTP error; "Network error: " and "Failed to decode response: " before the cause |
| `ApiClient.HttpErrorDescriptionInjective` | vertd/Services/ApiClient.swift:23-24 | two HTTP errors with non-negative codes and the same text have the same code and message, so the shown text loses nothing |
| `ApiClient.ResolvedUrl` | vertd/Services/ApiClient.swift:153-158 | resolution never fails and drops exactly one leading slash before appending |
| `ApiClient.ResolvedUrlLeadingSlash` | vertd/Services/ApiClient.swift:153-158 | an absolute and a relative spelling of a path resolve alike |
| `ApiClient.MakeRequest` | vertd/Services/ApiClient.swift:135-151 | every request carries the bearer credential and asks for JSON, and has a JSON content type exactly when it has a body; the header set is exactly these |
| `ApiClient.RouteOfEndpoint` | vertd/Services/ApiClient.swift:47-75 | the operation table (`Method`, `Path`, `Body`: POST `/api/upload-url` with the file name, GET `/api/jobs`, GET `/api/jobs/<id>`, POST `.../convert` and `.../skip`, GET `.../download-url`) is unambiguous: each operation's method, path and body identify that operation and no other |
| `ApiClient.Classify` | vertd/Services/ApiClient.swift:104-133 | only a decodable 2xx succeeds; 401 is unauthorised; other statuses carry status and body text; transport, non-HTTP and decoding failures have their own kinds; an invalid endpoint never arises |
| `ApiClient.RequestFor` | vertd/Services/ApiClient.swift:104 | the request of an operation has its method, body, resolved path and bearer credential |
| `ApiClient.Send` | vertd/Services/ApiClient.swift:98-133 | one request per call and the classified outcome as its result |
| `ApiClient.GetUploadUrl` | vertd/Services/ApiClient.swift:47-51 | a POST with the file name body whose result is the decoded URL or the call's error |
| `ApiClient.ListJobsCall` | vertd/Services/ApiClient.swift:53-56 | a GET of the jobs path whose result is the decoded list or the call's error |
| `ApiClient.GetJobCall` | vertd/Services/ApiClient.swift:58-60 | a GET of the job's path |
| `ApiClient.ConvertJobCall` | vertd/Services/ApiClient.swift:62-65 | a POST to the job's convert path whose result is the returned job or the call's error |
| `ApiClient.SkipJobCall` | vertd/Services/ApiClient.swift:67-70 | a POST to the job's skip path whose result is the returned job or the call's error |
| `ApiClient.GetDownloadUrlCall` | vertd/Services/ApiClient.swift:72-75 | a GET of the job's download path whose result is the decoded URL or the call's error |
| `ApiClient.CheckHealth` | vertd/Services/ApiClient.swift:77-96 | a GET of `health` with only the bearer header; any HTTP response answers, with true exactly for 2xx; only transport and non-HTTP failures are errors |
| `ApiClient.HealthAgreesWithSend` | vertd/Services/ApiClient.swift:77-96 | the health check says true exactly when a data call with a decodable body would succeed |
| `JobsViewModel.Validate` | vertd/ViewModels/JobsViewModel.swift:20-29 | settings are accepted exactly when the URL text is non-empty and parses and the key is non-empty; each rejection has its message |
| `JobsViewModel.StopAsWritten` | vertd/ViewModels/JobsViewModel.swift:56-62 | as written, stopping ends polling, the subscription and the connection but keeps the context |
| `JobsViewModel.Stop` | vertd/ViewModels/JobsViewModel.swift:56-62 | corrected, stopping also forgets the context; jobs, client and message are kept |
| `JobsViewModel.Install` | vertd/ViewModels/JobsViewModel.swift:38-53 | a start installs the context, a client for it, the subscription, the connection and polling |
| `JobsViewModel.StartAsWritten` | vertd/ViewModels/JobsViewModel.swift:20-54 | invalid settings only set the message; the running context is a no-op; a new context installs a client for it, points the reconnecting socket at it, starts polling and the subscription, and keeps the jobs, the message and the loading flag |
| `JobsViewModel.Start` | vertd/ViewModels/JobsViewModel.swift:20-54 | the same, with the corrected stop: a new context installs a client for it, points the reconnecting socket at it, starts polling and the subscription, and keeps the jobs, the message and the loading flag |
| `JobsViewModel.StartIdempotent` | vertd/ViewModels/JobsViewModel.swift:31-34 | starting twice with the same settings is starting once |
| `JobsViewModel.StopIdempotent` | vertd/ViewModels/JobsViewModel.swift:56-62 | stopping twice is stopping once |
| `JobsViewModel.RestartAfterStopAsWritten` | vertd/ViewModels/JobsViewModel.swift:31-62 | as written, start, stop and start again with the same settings leaves the screen neither polling nor subscribed nor connected |
| `JobsViewModel.RestartAfterStop` | vertd/ViewModels/JobsViewModel.swift:31-62 | corrected, a valid start after any stop leaves the screen polling, subscribed and reconnecting |
| `JobsViewModel.ReceiveEvent` | vertd/ViewModels/JobsViewModel.swift:41-46 | while subscribed an event is merged by the reducer and nothing else changes; otherwise it is dropped |
| `JobsViewModel.EventsIgnoredAfterStop` | vertd/ViewModels/JobsViewModel.swift:56-60 | after a stop events change nothing |
| `JobsViewModel.InsertNewestFirst` | vertd/ViewModels/JobsViewModel.swift:107 | inserting into a newest-first list keeps it newest first and adds exactly the job |
| `JobsViewModel.SortNewestFirst` | vertd/ViewModels/JobsViewModel.swift:107 | the shown list is a permutation of the listed jobs, newest first |
| `JobsViewModel.SortKeepsSorted` | vertd/ViewModels/JobsViewModel.swift:107 | a list already newest first is shown as it is |
| `JobsViewModel.FetchStarted` | vertd/ViewModels/JobsViewModel.swift:99-102 | without a client nothing happens; with one, loading is shown and the list request is sent |
| `JobsViewModel.FetchFinished` | vertd/ViewModels/JobsViewModel.swift:103-111 | loading ends; a listed collection replaces the jobs newest first and clears the message; a failure keeps the jobs and shows its description |
| `JobsViewModel.FetchJobs` | vertd/ViewModels/JobsViewModel.swift:99-112 | a fetch sends the list request of the current client and finishes with its classified result |
| `JobsViewModel.PollTick` | vertd/ViewModels/JobsViewModel.swift:88-97 | a tick fetches while polling and does nothing once polling was cancelled |
| `JobsViewModel.NoPollingAfterStop` | vertd/ViewModels/JobsViewModel.swift:56-58 | after a stop a tick fetches nothing |
| `JobsViewModel.ReplaceOrPrepend` | vertd/ViewModels/JobsViewModel.swift:114-120 | a known job is replaced in place with nothing else changed; a new one is put first before the unchanged list |
| `JobsViewModel.ReplaceOrPrependAgreesWithReducer` | vertd/ViewModels/JobsViewModel.swift:114-120 | the command upsert replaces like a completed event and prepends like a new-file event |
| `JobsViewModel.CommandFinished` | vertd/ViewModels/JobsViewModel.swift:71-75 | a returned job is upserted and the message kept; a failure shows its description |
| `JobsViewModel.Convert` | vertd/ViewModels/JobsViewModel.swift:68-76 | without a client nothing is sent; with one the convert POST is sent and its result applied |
| `JobsViewModel.Skip` | vertd/ViewModels/JobsViewModel.swift:78-86 | without a client nothing is sent; with one the skip POST is sent and its result applied |
| `JobsViewModel.CommandShowsReturnedJob` | vertd/ViewModels/JobsViewModel.swift:68-86 | a command answered with a job puts that job on the screen |
| `JobsViewModel.PollThenProgress` | vertd/ViewModels/JobsViewModel.swift:99-112 | a listed pending job followed by a progress report of 34.2 leaves one job, processing at 34.2 |
| `UploadViewModel.Upload` | vertd/ViewModels/UploadViewModel.swift:29-59 | bad settings fail at once with their message and no client; valid ones start preparing at 0; the transfer goes to exactly the URL the API gave; success ends uploaded at 1; any error ends failed with its text |
| `UploadViewModel.UploadFollowsPhaseOrder` | vertd/ViewModels/UploadViewModel.swift:41-58 | a run starts preparing or fails at once, moves preparing to uploading to uploaded or failed, and reaches uploaded or failed only at its end |
| `UploadViewModel.UploadProgressFollowsReports` | vertd/ViewModels/UploadViewModel.swift:41-52 | progress is reset to 0 when a run starts and then shows each report in turn while uploading |
| `UploadViewModel.Begin` | vertd/ViewModels/UploadViewModel.swift:30-42 | bad settings set the failed phase with their message and keep the progress; valid ones give preparing at 0 |
| `UploadViewModel.UrlReceived` | vertd/ViewModels/UploadViewModel.swift:44-58 | the upload URL moves the current state to uploading, its failure to failed with the error text; the progress stays |
| `UploadViewModel.ProgressLanded` | vertd/ViewModels/UploadViewModel.swift:48-52 | a progress report sets the progress of the current state whatever its phase |
| `UploadViewModel.ProgressLandedAll` | vertd/ViewModels/UploadViewModel.swift:48-52 | after several reports the phase is unchanged and the progress is the last report |
| `UploadViewModel.TransferFinished` | vertd/ViewModels/UploadViewModel.swift:54-58 | success writes uploaded at 1 over the current state; failure writes failed with the error text |
| `UploadViewModel.UploadIsItsSteps` | vertd/ViewModels/UploadViewModel.swift:29-59 | run without interference, the separate steps end in the state the whole run ends in |
| `UploadViewModel.ResetDuringTransferOverwritten` | vertd/ViewModels/UploadViewModel.swift:48-64 | a reset during a transfer is overwritten: a later report gives idle with that progress, and success then shows uploaded at 1 |
| `UploadViewModel.Reset` | vertd/ViewModels/UploadViewModel.swift:61-64 | reset gives the idle phase with progress 0 |
| `UploadViewModel.ResetAfterUpload` | vertd/ViewModels/UploadViewModel.swift:61-64 | whatever a run left on screen, reset returns to the state of a new screen |
| `UploadViewModel.DefaultClientResult` | vertd/ViewModels/UploadViewModel.swift:20-22 | with the default client, the upload URL is the call's result and its failure text is the error's description |
| `UploadViewModel.UnauthorizedUploadFails` | vertd/ViewModels/UploadViewModel.swift:44-58 | a 401 from the upload-URL endpoint ends the run failed with the unauthorised text and no transfer |
| `UploadService.Store` | vertd/Services/UploadService.swift:41-45 | storing sets the slot of that task and leaves every other slot as it was |
| `UploadService.Take` | vertd/Services/UploadService.swift:47-51 | taking returns what the slot held, if anything, and empties it; other slots are kept |
| `UploadService.Get` | vertd/Services/UploadService.swift:53-57 | reading returns what the slot holds |
| `UploadService.StoreThenTake` | vertd/Services/UploadService.swift:41-51 | what is stored is what is taken, taking restores the registry, and a second take finds nothing |
| `UploadService.BeginUpload` | vertd/Services/UploadService.swift:29-39 | an upload registers its operation under its task and sends a PUT to the destination |
| `UploadService.DidSendBodyData` | vertd/Services/UploadService.swift:61-77 | progress is reported to the registered operation as bytes sent over bytes expected, within 0 and 1 when the counts are consistent; unknown sizes and unregistered tasks are ignored |
| `UploadService.CompletionResult` | vertd/Services/UploadService.swift:85-98 | success exactly for no error and a 2xx HTTP response; an error is passed on; anything else is a bad-server-response error |
| `UploadService.DidComplete` | vertd/Services/UploadService.swift:79-102 | completion takes the slot and resumes its operation once with the completion result, reporting progress 1 first on success; an unregistered task is ignored |
| `UploadService.NoProgressAfterCompletion` | vertd/Services/UploadService.swift:69-83 | after completion, late progress reports for the task go nowhere |
| `UploadService.ResolvesAtMostOnce` | vertd/Services/UploadService.swift:79-83 | over any callback sequence a task is resumed at most as often as it was registered |
| `UploadService.HalfThenOk` | vertd/Services/UploadService.swift:61-102 | half the bytes and then a 200 give progress 0.5, then 1.0, then one success |

## Left out

- JSON coding (`Codable`, the snake-case keys, the three date formats) is not modelled. Decoded values are inputs of each `Outcome`, and frames arrive as parsed envelopes.
- Foundation's URL parsing is an input. `appending(path:)` is modelled on the record form, without percent-encoding.
- WebSocketClient.MakeStreamUrl: does not model `URLComponents` failing to split the base URL or to rebuild the stream URL; only the scheme check can fail here.
- The wall clock, the sleeps of the reconnect timer and of the poll loop, and Swift task scheduling are not modelled. Each timer firing, receive and fetch is one atomic transition.
- Overlapping fetches and command results arriving after a stop are modelled as the code does them: results are applied, and the first finished fetch clears the loading flag (`FetchStarted`/`FetchFinished`).
- The Combine hop to the main queue is not modelled; an event is merged when it is received.
- UploadViewModel.Upload: progress reports are taken to arrive before the transfer finishes. The main-actor hop in the progress handler could deliver one later; the model does not order them.
- UploadViewModel.Upload: one run is computed from the state at its start, as if nothing else touched the screen. The reset button and a second upload can act between its awaits; those interleavings are expressed with the step functions `Begin`, `UrlReceived`, `ProgressLanded` and `TransferFinished`, not by `Upload`.
- Strings are compared by code point. Swift compares `String` values by Unicode canonical equivalence, so identifiers, event type names and settings that differ only in normalisation are equal in the app and different here.
- UploadViewModel.Upload: the text of a failed transfer is an input, since it is the system's description of the transport error.
- JobsViewModel.SortNewestFirst: jobs created at the same instant keep the server's order. The source's sort does not promise any order for ties, so the contract states only the ordering and the permutation.
- ApiClient.RouteOfEndpoint: stated only for identifiers without `/`, because a slash inside an identifier makes two paths coincide.
- `getJob` and `getDownloadUrl` are modelled as calls but not used by any view model here. Their only caller is the job detail screen, which is presentation code.
- Floating point is exact `real` arithmetic. This covers `pow(2.0, n)` in the backoff, the seconds-to-nanoseconds conversion and the progress division.
- The background session configuration (identifier, timeouts, waiting for connectivity) is not modelled. Neither are the lock, the keychain and the SwiftUI views.

## Notes on the code

- Results of a command or poll that finish after `stop` are still applied (`JobsViewModel.FetchFinished`, `JobsViewModel.CommandFinished`).
- The reconnect attempt counter is reset only when a socket starts (`WebSocketClient.StartSocket`). A `connect` whose stream URL cannot be built keeps counting (`WebSocketClient.Connect`).
- `invalidEndpoint` exists as an error kind but cannot arise, because URL resolution never fails (`ApiClient.ResolvedUrl`, `ApiClient.Classify`).
- A reset during an upload does not stick: the run's later writes (a progress report, the final phase) overwrite it, so the screen can show a completed upload after the user reset it (`UploadViewModel.ResetDuringTransferOverwritten`).

## Findings

| source | as written | input that shows it | evidently intended | confidence | as-written member | corrected member |
|---|---|---|---|---|---|---|
| vertd/ViewModels/JobsViewModel.swift:56-62 | `stop` cancels polling, the subscription and the socket but keeps `currentContext`, so a later `start` with the same settings returns at the context check | `start(u, k)`; `stop()`; `start(u, k)`, which the jobs list does when it disappears and reappears | a stopped screen starts again when it reappears | high, not executed | `JobsViewModel.RestartAfterStopAsWritten` | `JobsViewModel.RestartAfterStop` |
| vertd/Services/WebSocketClient.swift:141-145 | the receive error handler does not check whether its loop was superseded, so the error of a cancelled socket marks the live connection down and schedules a reconnect | `connect` while connected (or `start` with new settings); the old socket's receive then fails; after one second the timer replaces the healthy socket, and its loop fails the same way | only the current loop's failure disconnects and reconnects | medium, not executed | `WebSocketClient.StaleLoopErrorAsWritten` | `WebSocketClient.StaleLoopErrorIgnored` |

The corrected definitions are `JobsViewModel.Stop`, used by `JobsViewModel.Start`, and `WebSocketClient.ReceiveFailed`, used by `WebSocketClient.Step`.
