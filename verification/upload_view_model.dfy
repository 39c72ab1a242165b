/** `UploadViewModel`: the upload screen's phase machine. An upload checks
    the settings, asks the API for a presigned upload URL, transfers the file
    there while reporting progress, and ends `uploaded` or `failed`. The
    asynchronous run is modelled as the sequence of states the screen
    passes through, given what each awaited step produced. */
module UploadViewModel {
  import opened Wrappers
  import opened Urls
  import ApiClient

  datatype Phase = Idle | Preparing | Uploading | Uploaded | Failed(message: string)

  /** The published fields: the phase and the progress fraction. */
  datatype UploadState = UploadState(phase: Phase, progress: real)

  const Initial: UploadState := UploadState(Idle, 0.0)

  const InvalidServerMessage: string := "Please set a valid server URL in Settings."
  const MissingKeyMessage: string := "Please add an API key in Settings."

  /** One run of `upload`: the states published, in order (the last one is
      where the screen ends), the connection an API client was made for and
      the file name it was asked about, if the settings were valid, and the
      destination the transfer went to, if it started. */
  datatype UploadRun = UploadRun(
    trace: seq<UploadState>,
    client: Option<ApiClient.Configuration>,
    requestedName: Option<string>,
    transferredTo: Option<Url>)

  /** The phase moves a run may make after its first state: from preparing
      to uploading or failure; while uploading, progress reports, then
      success or failure. */
  predicate RunStep(a: Phase, b: Phase) {
    match a
    case Preparing => b == Uploading || b.Failed?
    case Uploading => b == Uploading || b == Uploaded || b.Failed?
    case _ => false
  }

  /** The states a run publishes while the transfer reports progress. */
  function ProgressStates(uploading: UploadState, reports: seq<real>): (r: seq<UploadState>)
    ensures |r| == |reports|
    ensures forall i :: 0 <= i < |r| ==> r[i] == UploadState(uploading.phase, reports[i])
  {
    seq(|reports|, i requires 0 <= i < |reports| => uploading.(progress := reports[i]))
  }

  /** `upload(fileURL:fileName:serverURLString:apiKey:)`. `parsed` is what
      parsing the URL text gave; `uploadUrl` is the upload-URL call's result
      (its failure carrying the error's description); `reports` are the
      progress fractions delivered during the transfer; `transfer` is the
      transfer's result. */
  function Upload(s: UploadState, fileName: string, serverUrlText: string, parsed: Option<Url>, apiKey: string,
                  uploadUrl: Result<Url, string>, reports: seq<real>, transfer: Result<Unit, string>): (r: UploadRun)
    ensures |r.trace| >= 1
    // the settings are checked before any client exists
    ensures parsed.None? || serverUrlText == [] ==>
      r == UploadRun([s.(phase := Failed(InvalidServerMessage))], None, None, None)
    ensures parsed.Some? && serverUrlText != [] && apiKey == [] ==>
      r == UploadRun([s.(phase := Failed(MissingKeyMessage))], None, None, None)
    ensures parsed.Some? && serverUrlText != [] && apiKey != [] ==>
      && r.trace[0] == UploadState(Preparing, 0.0)
      && r.client == Some(ApiClient.Configuration(parsed.value, apiKey))
      && r.requestedName == Some(fileName)
    // the transfer goes exactly where the API said
    ensures r.transferredTo.Some? <==> r.client.Some? && uploadUrl.Success?
    ensures r.transferredTo.Some? ==> r.transferredTo.value == uploadUrl.value
    // how the run ends
    ensures r.client.Some? && uploadUrl.Failure? ==>
      r.trace[|r.trace| - 1] == UploadState(Failed(uploadUrl.error), 0.0)
    ensures r.transferredTo.Some? && transfer.Success? ==>
      r.trace[|r.trace| - 1] == UploadState(Uploaded, 1.0)
    ensures r.transferredTo.Some? && transfer.Failure? ==>
      r.trace[|r.trace| - 1].phase == Failed(transfer.error)
  {
    if parsed.None? || serverUrlText == [] then
      UploadRun([s.(phase := Failed(InvalidServerMessage))], None, None, None)
    else if apiKey == [] then
      UploadRun([s.(phase := Failed(MissingKeyMessage))], None, None, None)
    else
      var client := Some(ApiClient.Configuration(parsed.value, apiKey));
      var preparing := UploadState(Preparing, 0.0);
      match uploadUrl
      case Failure(m) =>
        UploadRun([preparing, preparing.(phase := Failed(m))], client, Some(fileName), None)
      case Success(destination) =>
        var uploading := preparing.(phase := Uploading);
        var during := [preparing, uploading] + ProgressStates(uploading, reports);
        var last := during[|during| - 1];
        var ending := match transfer
          case Success(_) => [last.(progress := 1.0), UploadState(Uploaded, 1.0)]
          case Failure(m) => [last.(phase := Failed(m))];
        UploadRun(during + ending, client, Some(fileName), Some(destination))
  }

  // ----- the run as separate main-actor steps -----
  //
  // Between the awaits of a run the screen can act on the same state (the
  // reset button, another upload), so each write of a run is also given as
  // a step on whatever state is current when it happens.

  /** The start of a run: the settings check, then preparing at 0. */
  function Begin(s: UploadState, serverUrlText: string, parsed: Option<Url>, apiKey: string): (r: UploadState)
    ensures parsed.None? || serverUrlText == [] ==> r == s.(phase := Failed(InvalidServerMessage))
    ensures parsed.Some? && serverUrlText != [] && apiKey == [] ==> r == s.(phase := Failed(MissingKeyMessage))
    ensures parsed.Some? && serverUrlText != [] && apiKey != [] ==> r == UploadState(Preparing, 0.0)
  {
    if parsed.None? || serverUrlText == [] then s.(phase := Failed(InvalidServerMessage))
    else if apiKey == [] then s.(phase := Failed(MissingKeyMessage))
    else UploadState(Preparing, 0.0)
  }

  /** The upload URL arrives: uploading, or failed with the error's text;
      the progress is left as it is. */
  function UrlReceived(s: UploadState, uploadUrl: Result<Url, string>): (r: UploadState)
    ensures r.progress == s.progress
    ensures r.phase == if uploadUrl.Success? then Uploading else Failed(uploadUrl.error)
  {
    match uploadUrl
    case Success(_) => s.(phase := Uploading)
    case Failure(m) => s.(phase := Failed(m))
  }

  /** A progress report lands: only the progress changes, whatever the phase. */
  function ProgressLanded(s: UploadState, fraction: real): (r: UploadState)
    ensures r.phase == s.phase && r.progress == fraction
  {
    s.(progress := fraction)
  }

  /** The progress reports of a transfer, landing in order. */
  function ProgressLandedAll(s: UploadState, reports: seq<real>): (r: UploadState)
    ensures r.phase == s.phase
    ensures |reports| == 0 ==> r == s
    ensures |reports| > 0 ==> r.progress == reports[|reports| - 1]
    decreases |reports|
  {
    if |reports| == 0 then s else ProgressLanded(ProgressLandedAll(s, reports[..|reports| - 1]), reports[|reports| - 1])
  }

  /** The transfer ends: uploaded at 1, or failed with the error's text. */
  function TransferFinished(s: UploadState, transfer: Result<Unit, string>): (r: UploadState)
    ensures transfer.Success? ==> r == UploadState(Uploaded, 1.0)
    ensures transfer.Failure? ==> r == s.(phase := Failed(transfer.error))
  {
    match transfer
    case Success(_) => UploadState(Uploaded, 1.0)
    case Failure(m) => s.(phase := Failed(m))
  }

  /** Run without interference, the steps end where `Upload` ends. */
  lemma UploadIsItsSteps(s: UploadState, fileName: string, serverUrlText: string, parsed: Option<Url>, apiKey: string,
                         uploadUrl: Result<Url, string>, reports: seq<real>, transfer: Result<Unit, string>)
    ensures var t := Upload(s, fileName, serverUrlText, parsed, apiKey, uploadUrl, reports, transfer).trace;
      var begun := Begin(s, serverUrlText, parsed, apiKey);
      t[|t| - 1] ==
        if begun.phase != Preparing then begun
        else if uploadUrl.Failure? then UrlReceived(begun, uploadUrl)
        else TransferFinished(ProgressLandedAll(UrlReceived(begun, uploadUrl), reports), transfer)
  {
    if parsed.Some? && serverUrlText != [] && apiKey != [] && uploadUrl.Success? && transfer.Failure? {
      var uploading := UploadState(Uploading, 0.0);
      var during := [UploadState(Preparing, 0.0), uploading] + ProgressStates(uploading, reports);
      ProgressLandedAllIs(uploading, reports);
      assert during[|during| - 1] == ProgressLandedAll(uploading, reports);
    }
  }

  lemma {:induction false} ProgressLandedAllIs(s: UploadState, reports: seq<real>)
    ensures ProgressLandedAll(s, reports) == if |reports| == 0 then s else s.(progress := reports[|reports| - 1])
    decreases |reports|
  {
    if |reports| > 0 {
      ProgressLandedAllIs(s, reports[..|reports| - 1]);
    }
  }

  /** A reset during a transfer does not stick: a later progress report and
      a successful end overwrite it, and the screen shows the upload as
      complete after the user reset it. */
  lemma ResetDuringTransferOverwritten(s: UploadState, fraction: real)
    requires s.phase == Uploading
    ensures var afterReset := Reset(s);
      && ProgressLanded(afterReset, fraction) == UploadState(Idle, fraction)
      && TransferFinished(ProgressLanded(afterReset, fraction), Success(Unit)) == UploadState(Uploaded, 1.0)
  {
  }

  /** The phase order: a run starts in `preparing` or fails at once; every
      later state follows from the one before by a run step; and `uploaded`
      and `failed` appear only as the final state. */
  lemma UploadFollowsPhaseOrder(s: UploadState, fileName: string, serverUrlText: string, parsed: Option<Url>, apiKey: string,
                                uploadUrl: Result<Url, string>, reports: seq<real>, transfer: Result<Unit, string>)
    ensures var t := Upload(s, fileName, serverUrlText, parsed, apiKey, uploadUrl, reports, transfer).trace;
      && (t[0].phase == Preparing || (|t| == 1 && t[0].phase.Failed?))
      && (forall i :: 0 <= i < |t| - 1 ==> RunStep(t[i].phase, t[i + 1].phase))
      && (forall i :: 0 <= i < |t| - 1 ==> t[i].phase != Uploaded && !t[i].phase.Failed?)
  {
    var t := Upload(s, fileName, serverUrlText, parsed, apiKey, uploadUrl, reports, transfer).trace;
    if parsed.Some? && serverUrlText != [] && apiKey != [] && uploadUrl.Success? {
      var preparing := UploadState(Preparing, 0.0);
      var uploading := preparing.(phase := Uploading);
      var during := [preparing, uploading] + ProgressStates(uploading, reports);
      assert forall i :: 1 <= i < |during| ==> during[i].phase == Uploading;
      assert t[..|during|] == during;
      assert forall i :: 0 <= i < |during| ==> t[i] == during[i];
    }
  }

  /** The progress shown while uploading is the last fraction reported, and
      it is reset to 0 when a run starts. */
  lemma UploadProgressFollowsReports(s: UploadState, fileName: string, serverUrlText: string, u: Url, apiKey: string,
                                     destination: Url, reports: seq<real>, transfer: Result<Unit, string>)
    requires serverUrlText != [] && apiKey != []
    ensures var t := Upload(s, fileName, serverUrlText, Some(u), apiKey, Success(destination), reports, transfer).trace;
      && t[0].progress == 0.0 && t[1] == UploadState(Uploading, 0.0)
      && forall i :: 0 <= i < |reports| ==> t[i + 2] == UploadState(Uploading, reports[i])
  {
  }

  /** `reset`. */
  function Reset(s: UploadState): (r: UploadState)
    ensures r.phase == Idle && r.progress == 0.0
  {
    Initial
  }

  /** Whatever a run left on the screen, `reset` returns to the state a new
      screen has. */
  lemma ResetAfterUpload(s: UploadState, fileName: string, serverUrlText: string, parsed: Option<Url>, apiKey: string,
                         uploadUrl: Result<Url, string>, reports: seq<real>, transfer: Result<Unit, string>)
    ensures var t := Upload(s, fileName, serverUrlText, parsed, apiKey, uploadUrl, reports, transfer).trace;
      Reset(t[|t| - 1]) == Initial
  {
  }

  /** The upload-URL result the default API client gives: the URL, or the
      description of the client error. */
  function DefaultClientResult(c: ApiClient.Call<Url>): (r: Result<Url, string>)
    ensures r.Success? <==> c.result.Success?
    ensures r.Success? ==> r.value == c.result.value
    ensures r.Failure? ==> r.error == ApiClient.Description(c.result.error)
  {
    match c.result
    case Success(u) => Success(u)
    case Failure(e) => Failure(ApiClient.Description(e))
  }

  /** With the default client, a 401 from the upload-URL endpoint ends the
      run failed with the unauthorised message and no transfer. */
  lemma UnauthorizedUploadFails(s: UploadState, fileName: string, serverUrlText: string, u: Url, apiKey: string,
                                text: Option<string>, reports: seq<real>, transfer: Result<Unit, string>)
    requires serverUrlText != [] && apiKey != []
    ensures var config := ApiClient.Configuration(u, apiKey);
      var urlResult := DefaultClientResult(ApiClient.GetUploadUrl(config, fileName, ApiClient.HttpResponse(401, text, Failure("unused"))));
      var r := Upload(s, fileName, serverUrlText, Some(u), apiKey, urlResult, reports, transfer);
      r.transferredTo.None? && r.trace[|r.trace| - 1].phase == Failed("Unauthorized API request")
  {
  }
}
