/** The REST boundary: the error taxonomy, request construction (URL
    resolution, headers), the fixed method and path of each operation, and
    the classification of one response. The network is a parameter: each
    operation takes the `Outcome` of its single request, and JSON decoding
    of a 2xx body is abstracted as the `decoded` part of that outcome. */
module ApiClient {
  import opened Wrappers
  import opened Urls
  import opened JobModel

  datatype ApiClientError =
    | InvalidEndpoint
    | InvalidResponse
    | Unauthorized
    | HttpError(statusCode: int, message: string)
    | Transport(cause: string)
    | Decoding(cause: string)

  /** The number a string of decimal digits denotes, most significant first. */
  function DigitsValue(s: string): int
    decreases |s|
  {
    if |s| == 0 then 0 else 10 * DigitsValue(s[..|s| - 1]) + (s[|s| - 1] as int - '0' as int)
  }

  /** Decimal text of a natural number, as string interpolation writes it:
      digits only, with no leading zero, denoting `n`. */
  function NatText(n: nat): (r: string)
    ensures |r| >= 1
    ensures forall i :: 0 <= i < |r| ==> '0' <= r[i] <= '9'
    ensures |r| > 1 ==> r[0] != '0'
    ensures DigitsValue(r) == n
    decreases n
  {
    var d := ('0' as int + n % 10) as char;
    if n < 10 then [d]
    else
      var front := NatText(n / 10);
      assert (front + [d])[..|front|] == front;
      front + [d]
  }

  function IntText(n: int): string {
    if n < 0 then "-" + NatText(-n) else NatText(n)
  }

  const HttpErrorPrefix: string := "Request failed with status "

  /** `errorDescription`, the text a view model shows. Causes stand for the
      wrapped error's own description; each text ends with the detail the
      error carries. */
  function Description(e: ApiClientError): (r: string)
    ensures e == InvalidEndpoint ==> r == "Invalid endpoint URL"
    ensures e == InvalidResponse ==> r == "Unexpected server response"
    ensures e == Unauthorized ==> r == "Unauthorized API request"
    ensures e.HttpError? ==> r == HttpErrorPrefix + IntText(e.statusCode) + ": " + e.message
    ensures e.HttpError? ==> |r| >= |e.message| && r[|r| - |e.message|..] == e.message
    ensures e.Transport? ==> r == "Network error: " + e.cause
    ensures e.Decoding? ==> r == "Failed to decode response: " + e.cause
    ensures e.Transport? || e.Decoding? ==> |r| >= |e.cause| && r[|r| - |e.cause|..] == e.cause
  {
    match e
    case InvalidEndpoint => "Invalid endpoint URL"
    case InvalidResponse => "Unexpected server response"
    case Unauthorized => "Unauthorized API request"
    case HttpError(code, message) => HttpErrorPrefix + IntText(code) + ": " + message
    case Transport(cause) => "Network error: " + cause
    case Decoding(cause) => "Failed to decode response: " + cause
  }

  predicate IsDigit(c: char) {
    '0' <= c <= '9'
  }

  /** The length of the leading run of decimal digits. */
  function DigitRun(s: string): (r: nat)
    ensures r <= |s|
    decreases |s|
  {
    if |s| == 0 || !IsDigit(s[0]) then 0 else 1 + DigitRun(s[1..])
  }

  lemma {:induction false} DigitRunOf(a: string, rest: string)
    requires forall i :: 0 <= i < |a| ==> IsDigit(a[i])
    requires |rest| > 0 && !IsDigit(rest[0])
    ensures DigitRun(a + rest) == |a|
    decreases |a|
  {
    if |a| > 0 {
      assert (a + rest)[0] == a[0];
      assert (a + rest)[1..] == a[1..] + rest;
      DigitRunOf(a[1..], rest);
    } else {
      assert a + rest == rest;
    }
  }

  /** A run of digits followed by `:` determines the digits and the rest. */
  lemma DigitsBeforeColon(a: string, x: string, b: string, y: string)
    requires forall i :: 0 <= i < |a| ==> IsDigit(a[i])
    requires forall i :: 0 <= i < |b| ==> IsDigit(b[i])
    requires a + ":" + x == b + ":" + y
    ensures a == b && x == y
  {
    var l := a + ":" + x;
    assert l == a + (":" + x);
    assert b + ":" + y == b + (":" + y);
    DigitRunOf(a, ":" + x);
    DigitRunOf(b, ":" + y);
    assert a == l[..|a|];
    assert b == l[..|b|];
    assert x == l[|a| + 1..];
    assert y == (b + ":" + y)[|b| + 1..];
  }

  /** The status text determines the code and the message. */
  lemma StatusTextInjective(c1: nat, m1: string, c2: nat, m2: string)
    requires HttpErrorPrefix + NatText(c1) + ": " + m1 == HttpErrorPrefix + NatText(c2) + ": " + m2
    ensures c1 == c2 && m1 == m2
  {
    var t1, t2 := NatText(c1), NatText(c2);
    var d1 := HttpErrorPrefix + t1 + ": " + m1;
    var d2 := HttpErrorPrefix + t2 + ": " + m2;
    assert d1[|HttpErrorPrefix|..] == t1 + ":" + (" " + m1);
    assert d2[|HttpErrorPrefix|..] == t2 + ":" + (" " + m2);
    DigitsBeforeColon(t1, " " + m1, t2, " " + m2);
    assert m1 == (" " + m1)[1..];
    assert m2 == (" " + m2)[1..];
  }

  /** The description of an HTTP error determines it: two HTTP errors with
      non-negative status codes and the same text have the same code and the
      same message. */
  lemma HttpErrorDescriptionInjective(e1: ApiClientError, e2: ApiClientError)
    requires e1.HttpError? && e2.HttpError? && e1.statusCode >= 0 && e2.statusCode >= 0
    requires Description(e1) == Description(e2)
    ensures e1 == e2
  {
    assert IntText(e1.statusCode) == NatText(e1.statusCode);
    assert IntText(e2.statusCode) == NatText(e2.statusCode);
    StatusTextInjective(e1.statusCode, e1.message, e2.statusCode, e2.message);
  }

  datatype Configuration = Configuration(baseUrl: Url, apiKey: string)

  /** The JSON body `{filename}` of the upload-destination request. */
  datatype RequestBody = UploadUrlBody(filename: string)

  datatype Request = Request(httpMethod: string, url: Url, headers: map<string, string>, body: Option<RequestBody>)

  /** `resolvedURL`: one leading `/` is dropped, then the path is appended to
      the base URL. It never fails, so `invalidEndpoint` cannot arise. */
  function ResolvedUrl(config: Configuration, path: string): (r: Option<Url>)
    ensures r.Some?
    ensures StartsWithSlash(path) ==> r == Some(AppendingPath(config.baseUrl, path[1..]))
    ensures !StartsWithSlash(path) ==> r == Some(AppendingPath(config.baseUrl, path))
  {
    if StartsWithSlash(path) then Some(AppendingPath(config.baseUrl, path[1..]))
    else Some(AppendingPath(config.baseUrl, path))
  }

  /** An absolute and a relative spelling of a path resolve alike. */
  lemma ResolvedUrlLeadingSlash(config: Configuration, p: string)
    requires !StartsWithSlash(p)
    ensures ResolvedUrl(config, "/" + p) == ResolvedUrl(config, p)
  {
    assert ("/" + p)[1..] == p;
  }

  const AuthorizationHeader: string := "Authorization"
  const AcceptHeader: string := "Accept"
  const ContentTypeHeader: string := "Content-Type"
  const JsonMediaType: string := "application/json"

  /** `makeRequest`: every request carries the bearer credential and asks for
      JSON, and declares a JSON body exactly when it has one. */
  function MakeRequest(config: Configuration, path: string, httpMethod: string, body: Option<RequestBody>)
    : (r: Result<Request, ApiClientError>)
    ensures r.Success?
    ensures r.value.httpMethod == httpMethod && r.value.body == body
    ensures Some(r.value.url) == ResolvedUrl(config, path)
    ensures r.value.headers.Keys
      == {AuthorizationHeader, AcceptHeader} + (if body.Some? then {ContentTypeHeader} else {})
    ensures r.value.headers[AuthorizationHeader] == "Bearer " + config.apiKey
    ensures r.value.headers[AcceptHeader] == JsonMediaType
    ensures body.Some? ==> r.value.headers[ContentTypeHeader] == JsonMediaType
  {
    match ResolvedUrl(config, path)
    case None => Failure(InvalidEndpoint)
    case Some(url) =>
      var headers := map[AuthorizationHeader := "Bearer " + config.apiKey, AcceptHeader := JsonMediaType];
      Success(Request(httpMethod, url, if body.Some? then headers[ContentTypeHeader := JsonMediaType] else headers, body))
  }

  // ----- the operation table -----

  datatype Operation =
    | RequestUploadUrl(filename: string)
    | ListJobs
    | GetJob(id: string)
    | ConvertJob(id: string)
    | SkipJob(id: string)
    | GetDownloadUrl(id: string)

  const JobsPath: string := "/api/jobs"
  const JobsPrefix: string := "/api/jobs/"

  function Method(op: Operation): string {
    match op
    case RequestUploadUrl(_) => "POST"
    case ConvertJob(_) => "POST"
    case SkipJob(_) => "POST"
    case _ => "GET"
  }

  function Path(op: Operation): string {
    match op
    case RequestUploadUrl(_) => "/api/upload-url"
    case ListJobs => JobsPath
    case GetJob(id) => JobsPrefix + id
    case ConvertJob(id) => JobsPrefix + id + "/convert"
    case SkipJob(id) => JobsPrefix + id + "/skip"
    case GetDownloadUrl(id) => JobsPrefix + id + "/download-url"
  }

  function Body(op: Operation): Option<RequestBody> {
    match op
    case RequestUploadUrl(f) => Some(UploadUrlBody(f))
    case _ => None
  }

  function FirstSlash(s: string): (r: Option<nat>)
    ensures r.Some? ==> r.value < |s| && s[r.value] == '/' && forall k :: 0 <= k < r.value ==> s[k] != '/'
    ensures r.None? ==> forall k :: 0 <= k < |s| ==> s[k] != '/'
    decreases |s|
  {
    if |s| == 0 then None
    else if s[0] == '/' then Some(0)
    else match FirstSlash(s[1..])
      case None => None
      case Some(i) => Some(i + 1)
  }

  predicate SlashFree(s: string) {
    forall k :: 0 <= k < |s| ==> s[k] != '/'
  }

  /** The server's view: which operation a method, path and body name. */
  function Route(httpMethod: string, path: string, body: Option<RequestBody>): Option<Operation> {
    if body.Some? then
      if httpMethod == "POST" && path == "/api/upload-url" then Some(RequestUploadUrl(body.value.filename)) else None
    else if httpMethod == "GET" && path == JobsPath then Some(ListJobs)
    else if |path| >= |JobsPrefix| && path[..|JobsPrefix|] == JobsPrefix then
      var rest := path[|JobsPrefix|..];
      match FirstSlash(rest)
      case None => if httpMethod == "GET" then Some(GetJob(rest)) else None
      case Some(i) =>
        var id := rest[..i];
        var action := rest[i + 1..];
        if httpMethod == "POST" && action == "convert" then Some(ConvertJob(id))
        else if httpMethod == "POST" && action == "skip" then Some(SkipJob(id))
        else if httpMethod == "GET" && action == "download-url" then Some(GetDownloadUrl(id))
        else None
    else None
  }

  function OperationId(op: Operation): string {
    match op
    case GetJob(id) => id
    case ConvertJob(id) => id
    case SkipJob(id) => id
    case GetDownloadUrl(id) => id
    case _ => ""
  }

  lemma {:induction false} FirstSlashAfter(id: string, tail: string)
    requires SlashFree(id)
    ensures FirstSlash(id + "/" + tail) == Some(|id|)
    decreases |id|
  {
    var s := id + "/" + tail;
    if |id| > 0 {
      assert s[1..] == id[1..] + "/" + tail;
      FirstSlashAfter(id[1..], tail);
    }
  }

  /** How `Route` splits a job action path: the prefix, the identifier up to
      its first slash, then the action. */
  lemma {:induction false} SplitActionPath(id: string, action: string)
    requires SlashFree(id)
    ensures var p := JobsPrefix + id + "/" + action;
      && |p| >= |JobsPrefix| && p[..|JobsPrefix|] == JobsPrefix
      && FirstSlash(p[|JobsPrefix|..]) == Some(|id|)
      && p[|JobsPrefix|..][..|id|] == id
      && p[|JobsPrefix|..][|id| + 1..] == action
  {
    var p := JobsPrefix + id + "/" + action;
    var rest := id + "/" + action;
    assert p == JobsPrefix + rest;
    assert p[..|JobsPrefix|] == JobsPrefix;
    assert p[|JobsPrefix|..] == rest;
    FirstSlashAfter(id, action);
    assert rest[..|id|] == id;
    assert rest[|id| + 1..] == action;
  }

  /** The table is unambiguous: for identifiers without `/`, the method, path
      and body of an operation name that operation and no other. */
  lemma RouteOfEndpoint(op: Operation)
    requires SlashFree(OperationId(op))
    ensures Route(Method(op), Path(op), Body(op)) == Some(op)
  {
    var id := OperationId(op);
    var path := Path(op);
    match op
    case GetJob(_) =>
      assert path == JobsPrefix + id;
      assert path[..|JobsPrefix|] == JobsPrefix && path[|JobsPrefix|..] == id;
    case ConvertJob(_) =>
      assert path == JobsPrefix + id + "/" + "convert";
      SplitActionPath(id, "convert");
    case SkipJob(_) =>
      assert path == JobsPrefix + id + "/" + "skip";
      SplitActionPath(id, "skip");
    case GetDownloadUrl(_) =>
      assert path == JobsPrefix + id + "/" + "download-url";
      SplitActionPath(id, "download-url");
    case _ =>
  }

  // ----- one exchange -----

  /** What the network made of one request: a transport failure, a response
      that is not HTTP, or an HTTP status with the body as text (`None` when
      it is not valid UTF-8) and the body decoded as the expected type. */
  datatype Outcome<T> =
    | TransportFailure(cause: string)
    | NonHttpResponse
    | HttpResponse(statusCode: int, bodyText: Option<string>, decoded: Result<T, string>)

  predicate IsSuccessStatus(code: int) {
    200 <= code < 300
  }

  const UnauthorizedStatus: int := 401
  const UnknownErrorText: string := "Unknown error"

  /** The response classification of `send`: only a 2xx response whose body
      decodes succeeds, with the decoded value; 401 is `unauthorized`; any
      other status is `httpError` with the status and the body text
      ("Unknown error" when the body is not UTF-8); transport, non-HTTP and
      decoding failures each have their own kind. */
  function Classify<T>(o: Outcome<T>): (r: Result<T, ApiClientError>)
    ensures r.Success? <==> o.HttpResponse? && IsSuccessStatus(o.statusCode) && o.decoded.Success?
    ensures r.Success? ==> r.value == o.decoded.value
    ensures o.TransportFailure? ==> r == Failure(Transport(o.cause))
    ensures o.NonHttpResponse? ==> r == Failure(InvalidResponse)
    ensures r == Failure(Unauthorized) <==> o.HttpResponse? && o.statusCode == UnauthorizedStatus
    ensures r.Failure? && r.error.HttpError? <==>
      o.HttpResponse? && !IsSuccessStatus(o.statusCode) && o.statusCode != UnauthorizedStatus
    ensures r.Failure? && r.error.HttpError? ==>
      r.error.statusCode == o.statusCode
      && r.error.message == (if o.bodyText.Some? then o.bodyText.value else UnknownErrorText)
    ensures r.Failure? && r.error.Decoding? <==>
      o.HttpResponse? && IsSuccessStatus(o.statusCode) && o.decoded.Failure?
    ensures r != Failure(InvalidEndpoint)
  {
    match o
    case TransportFailure(cause) => Failure(Transport(cause))
    case NonHttpResponse => Failure(InvalidResponse)
    case HttpResponse(code, text, decoded) =>
      if IsSuccessStatus(code) then
        match decoded
        case Success(v) => Success(v)
        case Failure(cause) => Failure(Decoding(cause))
      else if code == UnauthorizedStatus then Failure(Unauthorized)
      else Failure(HttpError(code, if text.Some? then text.value else UnknownErrorText))
  }

  /** One call: the single request sent (there is no retry) and its result. */
  datatype Call<T> = Call(request: Request, result: Result<T, ApiClientError>)

  /** The request an operation sends. */
  function RequestFor(config: Configuration, op: Operation): (r: Request)
    ensures r.httpMethod == Method(op) && r.body == Body(op)
    ensures Some(r.url) == ResolvedUrl(config, Path(op))
    ensures AuthorizationHeader in r.headers && r.headers[AuthorizationHeader] == "Bearer " + config.apiKey
  {
    MakeRequest(config, Path(op), Method(op), Body(op)).value
  }

  /** `send`: builds the operation's request and classifies its outcome. */
  function Send<T>(config: Configuration, op: Operation, o: Outcome<T>): (r: Call<T>)
    ensures r.request == RequestFor(config, op)
    ensures r.result == Classify(o)
  {
    match MakeRequest(config, Path(op), Method(op), Body(op))
    case Failure(e) => Call(RequestFor(config, op), Failure(e))
    case Success(request) => Call(request, Classify(o))
  }

  datatype UrlResponse = UrlResponse(url: Url)
  datatype JobsResponse = JobsResponse(jobs: seq<Job>)
  datatype JobActionResponse = JobActionResponse(status: string, job: Job)

  /** A call whose result is projected out of the decoded response. */
  predicate Projects<T, U(==)>(c: Call<U>, sent: Call<T>, f: T -> U) {
    && c.request == sent.request
    && c.result.Success? == sent.result.Success?
    && (c.result.Success? ==> c.result.value == f(sent.result.value))
    && (c.result.Failure? ==> c.result.error == sent.result.error)
  }

  function GetUploadUrl(config: Configuration, filename: string, o: Outcome<UrlResponse>): (r: Call<Url>)
    ensures r.request.httpMethod == "POST" && r.request.body == Some(UploadUrlBody(filename))
    ensures Projects(r, Send(config, RequestUploadUrl(filename), o), (x: UrlResponse) => x.url)
  {
    var c := Send(config, RequestUploadUrl(filename), o);
    Call(c.request, match c.result case Success(v) => Success(v.url) case Failure(e) => Failure(e))
  }

  function ListJobsCall(config: Configuration, o: Outcome<JobsResponse>): (r: Call<seq<Job>>)
    ensures r.request.httpMethod == "GET" && Some(r.request.url) == ResolvedUrl(config, JobsPath)
    ensures Projects(r, Send(config, ListJobs, o), (x: JobsResponse) => x.jobs)
  {
    var c := Send(config, ListJobs, o);
    Call(c.request, match c.result case Success(v) => Success(v.jobs) case Failure(e) => Failure(e))
  }

  function GetJobCall(config: Configuration, id: string, o: Outcome<Job>): (r: Call<Job>)
    ensures r.request.httpMethod == "GET" && Some(r.request.url) == ResolvedUrl(config, JobsPrefix + id)
    ensures r == Send(config, GetJob(id), o)
  {
    Send(config, GetJob(id), o)
  }

  function ConvertJobCall(config: Configuration, id: string, o: Outcome<JobActionResponse>): (r: Call<Job>)
    ensures r.request.httpMethod == "POST" && Some(r.request.url) == ResolvedUrl(config, JobsPrefix + id + "/convert")
    ensures Projects(r, Send(config, ConvertJob(id), o), (x: JobActionResponse) => x.job)
  {
    var c := Send(config, ConvertJob(id), o);
    Call(c.request, match c.result case Success(v) => Success(v.job) case Failure(e) => Failure(e))
  }

  function SkipJobCall(config: Configuration, id: string, o: Outcome<JobActionResponse>): (r: Call<Job>)
    ensures r.request.httpMethod == "POST" && Some(r.request.url) == ResolvedUrl(config, JobsPrefix + id + "/skip")
    ensures Projects(r, Send(config, SkipJob(id), o), (x: JobActionResponse) => x.job)
  {
    var c := Send(config, SkipJob(id), o);
    Call(c.request, match c.result case Success(v) => Success(v.job) case Failure(e) => Failure(e))
  }

  function GetDownloadUrlCall(config: Configuration, id: string, o: Outcome<UrlResponse>): (r: Call<Url>)
    ensures r.request.httpMethod == "GET" && Some(r.request.url) == ResolvedUrl(config, JobsPrefix + id + "/download-url")
    ensures Projects(r, Send(config, GetDownloadUrl(id), o), (x: UrlResponse) => x.url)
  {
    var c := Send(config, GetDownloadUrl(id), o);
    Call(c.request, match c.result case Success(v) => Success(v.url) case Failure(e) => Failure(e))
  }

  /** `checkHealth`: a GET of `health` with the bearer credential only. The
      answer is whether the status is 2xx; other statuses give `false`, not
      an error. Only a transport failure or a non-HTTP response throws. */
  function CheckHealth(config: Configuration, o: Outcome<Unit>): (r: Call<bool>)
    ensures r.request.httpMethod == "GET" && r.request.url == AppendingPath(config.baseUrl, "health")
    ensures r.request.headers == map[AuthorizationHeader := "Bearer " + config.apiKey]
    ensures r.result.Success? <==> o.HttpResponse?
    ensures r.result.Success? ==> (r.result.value <==> IsSuccessStatus(o.statusCode))
    ensures o.TransportFailure? ==> r.result == Failure(Transport(o.cause))
    ensures o.NonHttpResponse? ==> r.result == Failure(InvalidResponse)
  {
    var request := Request("GET", AppendingPath(config.baseUrl, "health"),
                           map[AuthorizationHeader := "Bearer " + config.apiKey], None);
    match o
    case TransportFailure(cause) => Call(request, Failure(Transport(cause)))
    case NonHttpResponse => Call(request, Failure(InvalidResponse))
    case HttpResponse(code, _, _) => Call(request, Success(IsSuccessStatus(code)))
  }

  /** The health check and a data call agree on what a healthy status is:
      the check says `true` exactly when a data call with a decodable body
      would succeed. */
  lemma HealthAgreesWithSend(config: Configuration, code: int, text: Option<string>)
    ensures CheckHealth(config, HttpResponse(code, text, Success(Unit))).result == Success(true)
        <==> Classify(HttpResponse(code, text, Success(Unit))).Success?
  {
  }
}
