/** The upload transfer bridge: a registry from transport task identifier to
    the pending operation (its progress handler and continuation), fed by
    the transport's progress and completion callbacks. The lock only
    serialises access, so the registry is modelled as a plain map updated by
    one callback at a time. */
module UploadService {
  import opened Wrappers
  import opened Urls

  /** A pending operation, identified by an opaque token: it stands for the
      progress handler and the continuation of one `upload` call. */
  datatype PendingUpload = PendingUpload(token: nat)

  type Registry = map<int, PendingUpload>

  /** `store(operation:for:)`. */
  function Store(reg: Registry, taskId: int, op: PendingUpload): (r: Registry)
    ensures taskId in r && r[taskId] == op
    ensures forall t :: t != taskId ==> (t in r <==> t in reg)
    ensures forall t :: t != taskId && t in reg ==> r[t] == reg[t]
  {
    reg[taskId := op]
  }

  datatype Taken = Taken(op: Option<PendingUpload>, registry: Registry)

  /** `takeOperation(for:)`: removes the slot and hands over what it held. */
  function Take(reg: Registry, taskId: int): (r: Taken)
    ensures r.op.Some? <==> taskId in reg
    ensures r.op.Some? ==> r.op.value == reg[taskId]
    ensures taskId !in r.registry
    ensures forall t :: t != taskId ==> (t in r.registry <==> t in reg)
    ensures forall t :: t != taskId && t in reg ==> r.registry[t] == reg[t]
  {
    if taskId in reg then Taken(Some(reg[taskId]), reg - {taskId}) else Taken(None, reg)
  }

  /** `getOperation(for:)`: reads the slot; the registry is not an output. */
  function Get(reg: Registry, taskId: int): (r: Option<PendingUpload>)
    ensures r.Some? <==> taskId in reg
    ensures r.Some? ==> r.value == reg[taskId]
  {
    if taskId in reg then Some(reg[taskId]) else None
  }

  /** What is stored is what is taken, and the slot can be taken only once;
      taking leaves the registry as it was before the store. */
  lemma StoreThenTake(reg: Registry, taskId: int, op: PendingUpload)
    requires taskId !in reg
    ensures Take(Store(reg, taskId, op), taskId).op == Some(op)
    ensures Take(Store(reg, taskId, op), taskId).registry == reg
    ensures Take(Take(Store(reg, taskId, op), taskId).registry, taskId).op.None?
  {
    assert Store(reg, taskId, op) - {taskId} == reg;
  }

  /** The request `upload(fileURL:to:progress:)` hands the transport. */
  datatype TransferRequest = TransferRequest(httpMethod: string, url: Url)

  /** `upload(fileURL:to:progress:)`: a PUT of the file to the destination,
      registered under the transport's task identifier before it starts. */
  function BeginUpload(reg: Registry, taskId: int, op: PendingUpload, destination: Url): (r: (Registry, TransferRequest))
    ensures r.0 == Store(reg, taskId, op)
    ensures r.1 == TransferRequest("PUT", destination)
  {
    (Store(reg, taskId, op), TransferRequest("PUT", destination))
  }

  /** `task.response`: absent or not HTTP, or an HTTP status. */
  datatype TaskResponse = NotHttp | HttpStatus(code: int)

  datatype UploadError = TransportError(cause: string) | BadServerResponse

  /** What the bridge delivers to a pending operation. */
  datatype Notification =
    | ProgressReported(taskId: int, op: PendingUpload, fraction: real)
    | Resumed(taskId: int, op: PendingUpload, result: Result<Unit, UploadError>)

  /** `didSendBodyData`: the fraction sent, reported to the registered
      operation; ignored when the expected size is unknown or no operation is
      registered. The registry is read, never changed. */
  function DidSendBodyData(reg: Registry, taskId: int, totalSent: int, totalExpected: int): (r: seq<Notification>)
    ensures totalExpected <= 0 || taskId !in reg ==> r == []
    ensures totalExpected > 0 && taskId in reg ==>
      |r| == 1 && r[0].ProgressReported? && r[0].taskId == taskId && r[0].op == reg[taskId]
      && r[0].fraction * totalExpected as real == totalSent as real
    ensures totalExpected > 0 && 0 <= totalSent <= totalExpected && |r| == 1 ==> 0.0 <= r[0].fraction <= 1.0
  {
    if totalExpected <= 0 then []
    else match Get(reg, taskId)
      case None => []
      case Some(op) => [ProgressReported(taskId, op, totalSent as real / totalExpected as real)]
  }

  /** `didCompleteWithError`: takes the slot; nothing happens if there was
      none. A transport error fails the operation with that error; a missing,
      non-HTTP or non-2xx response fails it with a bad-server-response error;
      a 2xx response reports progress 1.0 and then succeeds. */
  function DidComplete(reg: Registry, taskId: int, error: Option<string>, response: TaskResponse)
    : (r: (Registry, seq<Notification>))
    ensures r.0 == Take(reg, taskId).registry
    ensures taskId !in reg ==> r.1 == []
    ensures taskId in reg ==> |r.1| >= 1 && r.1[|r.1| - 1] == Resumed(taskId, reg[taskId], CompletionResult(error, response))
    ensures taskId in reg && CompletionResult(error, response).Success? ==>
      r.1 == [ProgressReported(taskId, reg[taskId], 1.0), Resumed(taskId, reg[taskId], Success(Unit))]
    ensures CompletionResult(error, response).Failure? ==> |r.1| <= 1
  {
    var taken := Take(reg, taskId);
    match taken.op
    case None => (taken.registry, [])
    case Some(op) =>
      var result := CompletionResult(error, response);
      if result.Success? then (taken.registry, [ProgressReported(taskId, op, 1.0), Resumed(taskId, op, result)])
      else (taken.registry, [Resumed(taskId, op, result)])
  }

  /** How a finished transfer resolves. */
  function CompletionResult(error: Option<string>, response: TaskResponse): (r: Result<Unit, UploadError>)
    ensures r.Success? <==> error.None? && response.HttpStatus? && 200 <= response.code < 300
    ensures error.Some? ==> r == Failure(TransportError(error.value))
    ensures error.None? && r.Failure? ==> r == Failure(BadServerResponse)
  {
    match error
    case Some(e) => Failure(TransportError(e))
    case None =>
      match response
      case NotHttp => Failure(BadServerResponse)
      case HttpStatus(code) => if 200 <= code < 300 then Success(Unit) else Failure(BadServerResponse)
  }

  /** Once a transfer has completed, its late progress reports go nowhere. */
  lemma NoProgressAfterCompletion(reg: Registry, taskId: int, error: Option<string>, response: TaskResponse, sent: int, expected: int)
    ensures DidSendBodyData(DidComplete(reg, taskId, error, response).0, taskId, sent, expected) == []
  {
  }

  /** The callbacks the bridge sees: an upload starting, body progress, and
      completion. */
  datatype Callback =
    | Began(taskId: int, op: PendingUpload)
    | SentBody(taskId: int, totalSent: int, totalExpected: int)
    | Finished(taskId: int, error: Option<string>, response: TaskResponse)

  function Run(reg: Registry, callbacks: seq<Callback>): (r: (Registry, seq<Notification>))
    decreases |callbacks|
  {
    if |callbacks| == 0 then (reg, [])
    else
      var (reg1, out) := match callbacks[0]
        case Began(t, op) => (Store(reg, t, op), [])
        case SentBody(t, sent, expected) => (reg, DidSendBodyData(reg, t, sent, expected))
        case Finished(t, e, resp) => DidComplete(reg, t, e, resp);
      var (reg2, rest) := Run(reg1, callbacks[1..]);
      (reg2, out + rest)
  }

  function Resumptions(ns: seq<Notification>, taskId: int): nat {
    if |ns| == 0 then 0
    else (if ns[0].Resumed? && ns[0].taskId == taskId then 1 else 0) + Resumptions(ns[1..], taskId)
  }

  function Registrations(callbacks: seq<Callback>, taskId: int): nat {
    if |callbacks| == 0 then 0
    else (if callbacks[0].Began? && callbacks[0].taskId == taskId then 1 else 0) + Registrations(callbacks[1..], taskId)
  }

  lemma {:induction false} ResumptionsAppend(a: seq<Notification>, b: seq<Notification>, taskId: int)
    ensures Resumptions(a + b, taskId) == Resumptions(a, taskId) + Resumptions(b, taskId)
    decreases |a|
  {
    if |a| > 0 {
      assert (a + b)[0] == a[0];
      assert (a + b)[1..] == a[1..] + b;
      ResumptionsAppend(a[1..], b, taskId);
    } else {
      assert a + b == b;
    }
  }

  /** Single resolution: over any run of callbacks, the resumptions of a task
      identifier, plus one if its slot is still held at the end, never exceed
      the slots registered for it (one if it was already registered, plus
      one per start). In particular an upload started once is resumed at
      most once, however many completions arrive. */
  lemma {:induction false} ResolvesAtMostOnce(reg: Registry, callbacks: seq<Callback>, taskId: int)
    ensures var r := Run(reg, callbacks);
      Resumptions(r.1, taskId) + (if taskId in r.0 then 1 else 0)
        <= (if taskId in reg then 1 else 0) + Registrations(callbacks, taskId)
    decreases |callbacks|
  {
    if |callbacks| > 0 {
      var (reg1, out) := match callbacks[0]
        case Began(t, op) => (Store(reg, t, op), [])
        case SentBody(t, sent, expected) => (reg, DidSendBodyData(reg, t, sent, expected))
        case Finished(t, e, resp) => DidComplete(reg, t, e, resp);
      var (reg2, rest) := Run(reg1, callbacks[1..]);
      ResolvesAtMostOnce(reg1, callbacks[1..], taskId);
      ResumptionsAppend(out, rest, taskId);
      assert Run(reg, callbacks) == (reg2, out + rest);
      match callbacks[0]
      case Began(t, op) =>
      case SentBody(t, sent, expected) =>
        assert Resumptions(out, taskId) == 0;
      case Finished(t, e, resp) =>
        if t == taskId && taskId in reg {
          assert Resumptions(out, taskId) <= 1;
        } else if t == taskId {
          assert out == [];
        } else {
          assert Resumptions(out, taskId) == 0;
        }
    }
  }

  /** An upload that reports half its bytes and then gets a 200 sees progress
      0.5, then 1.0, then one successful resumption. */
  lemma HalfThenOk(taskId: int, op: PendingUpload)
    ensures Run(map[], [Began(taskId, op), SentBody(taskId, 50, 100), Finished(taskId, None, HttpStatus(200))]).1
      == [ProgressReported(taskId, op, 0.5), ProgressReported(taskId, op, 1.0), Resumed(taskId, op, Success(Unit))]
  {
    var cbs := [Began(taskId, op), SentBody(taskId, 50, 100), Finished(taskId, None, HttpStatus(200))];
    var reg1 := Store(map[], taskId, op);
    assert DidSendBodyData(reg1, taskId, 50, 100) == [ProgressReported(taskId, op, 0.5)];
    var done := DidComplete(reg1, taskId, None, HttpStatus(200));
    assert done.1 == [ProgressReported(taskId, op, 1.0), Resumed(taskId, op, Success(Unit))];
    assert cbs[1..][1..][1..] == [];
    assert Run(done.0, cbs[1..][1..][1..]) == (done.0, []);
    assert done.1 + [] == done.1;
    assert Run(reg1, cbs[1..][1..]) == (done.0, done.1);
    assert Run(reg1, cbs[1..]) == (done.0, [ProgressReported(taskId, op, 0.5)] + done.1);
    assert Run(map[], cbs) == (done.0, [] + ([ProgressReported(taskId, op, 0.5)] + done.1));
  }
}
