/** The job record and its nested file, probe and result data, the six-state
    status, and the by-identifier helpers that every update of a job
    collection goes through. Dates are abstract integer instants and Swift
    `Double`s are reals. */
module JobModel {
  import opened Wrappers

  type Instant = int

  datatype JobStatus = Pending | Confirmed | Processing | Completed | Failed | Skipped

  /** The JSON raw value of each status: the case name itself. */
  function RawValue(s: JobStatus): string {
    match s
    case Pending => "pending"
    case Confirmed => "confirmed"
    case Processing => "processing"
    case Completed => "completed"
    case Failed => "failed"
    case Skipped => "skipped"
  }

  /** `JobStatus(rawValue:)`: the one status whose raw value is `raw`, if any. */
  function ParseStatus(raw: string): (r: Option<JobStatus>)
    ensures r.Some? ==> RawValue(r.value) == raw
    ensures r.None? ==> forall s: JobStatus :: RawValue(s) != raw
  {
    if raw == "pending" then Some(Pending)
    else if raw == "confirmed" then Some(Confirmed)
    else if raw == "processing" then Some(Processing)
    else if raw == "completed" then Some(Completed)
    else if raw == "failed" then Some(Failed)
    else if raw == "skipped" then Some(Skipped)
    else None
  }

  /** Parsing a raw value gives back the status it came from; with the
      contract of `ParseStatus` this makes the two mutually inverse. */
  lemma ParseRawValue(s: JobStatus)
    ensures ParseStatus(RawValue(s)) == Some(s)
  {
  }

  /** `CaseIterable`: every status, in declaration order, each once. */
  const AllStatuses: seq<JobStatus> := [Pending, Confirmed, Processing, Completed, Failed, Skipped]

  lemma AllStatusesComplete(s: JobStatus)
    ensures s in AllStatuses
    ensures forall i, k :: 0 <= i < k < |AllStatuses| ==> AllStatuses[i] != AllStatuses[k]
  {
  }

  datatype FileInfo = FileInfo(name: string, sizeBytes: int, path: Option<string>, s3Key: Option<string>)

  datatype ProbeResult = ProbeResult(
    durationSeconds: real,
    videoCodec: string,
    audioCodec: string,
    width: int,
    height: int,
    frameCount: int,
    frameRate: real)

  /** An empty `error` means no error; it is not optional. */
  datatype TranscodeResult = TranscodeResult(
    outputPath: Option<string>,
    outputSizeBytes: int,
    durationSeconds: real,
    error: string,
    outputS3Key: string)

  datatype Job = Job(
    id: string,
    status: JobStatus,
    file: FileInfo,
    createdAt: Instant,
    startedAt: Option<Instant>,
    completedAt: Option<Instant>,
    progress: real,
    probe: Option<ProbeResult>,
    result: Option<TranscodeResult>,
    telegramMessageId: Option<int>)

  /** A job that awaits the user's convert-or-skip decision. */
  predicate IsPendingApproval(j: Job)
    ensures IsPendingApproval(j) ==> !IsTerminal(j)
  {
    j.status == Pending
  }

  /** A job that has finished one way or another. */
  predicate IsTerminal(j: Job)
    ensures IsTerminal(j) <==> !(j.status in {Pending, Confirmed, Processing})
  {
    match j.status
    case Completed | Failed | Skipped => true
    case _ => false
  }

  // ----- identity and the mutable fields -----

  /** The `let` fields of a job: its identifier, file and creation time. */
  predicate SameIdentity(a: Job, b: Job) {
    a.id == b.id && a.file == b.file && a.createdAt == b.createdAt
  }

  /** An assignment to one of the `var` fields of a job; the `let` fields have
      no update, so no value of this type can change them. */
  datatype JobUpdate =
    | SetStatus(status: JobStatus)
    | SetStartedAt(startedAt: Option<Instant>)
    | SetCompletedAt(completedAt: Option<Instant>)
    | SetProgress(progress: real)
    | SetProbe(probe: Option<ProbeResult>)
    | SetResult(result: Option<TranscodeResult>)
    | SetTelegramMessageId(telegramMessageId: Option<int>)

  function Update(j: Job, u: JobUpdate): (r: Job)
    ensures SameIdentity(j, r)
    ensures u.SetStatus? ==> r.status == u.status
    ensures u.SetStartedAt? ==> r.startedAt == u.startedAt
    ensures u.SetCompletedAt? ==> r.completedAt == u.completedAt
    ensures u.SetProgress? ==> r.progress == u.progress
    ensures u.SetProbe? ==> r.probe == u.probe
    ensures u.SetResult? ==> r.result == u.result
    ensures u.SetTelegramMessageId? ==> r.telegramMessageId == u.telegramMessageId
  {
    match u
    case SetStatus(v) => j.(status := v)
    case SetStartedAt(v) => j.(startedAt := v)
    case SetCompletedAt(v) => j.(completedAt := v)
    case SetProgress(v) => j.(progress := v)
    case SetProbe(v) => j.(probe := v)
    case SetResult(v) => j.(result := v)
    case SetTelegramMessageId(v) => j.(telegramMessageId := v)
  }

  /** The update that puts back `j`'s own value of the field `u` assigns. */
  function Restoring(u: JobUpdate, j: Job): JobUpdate {
    match u
    case SetStatus(_) => SetStatus(j.status)
    case SetStartedAt(_) => SetStartedAt(j.startedAt)
    case SetCompletedAt(_) => SetCompletedAt(j.completedAt)
    case SetProgress(_) => SetProgress(j.progress)
    case SetProbe(_) => SetProbe(j.probe)
    case SetResult(_) => SetResult(j.result)
    case SetTelegramMessageId(_) => SetTelegramMessageId(j.telegramMessageId)
  }

  /** Undoing an update with the old value of its field restores the whole
      job, so an update touches no field but its own. */
  lemma UpdateTouchesOneField(j: Job, u: JobUpdate)
    ensures Update(Update(j, u), Restoring(u, j)) == j
  {
  }

  // ----- equality -----

  function FileInfoEqual(a: FileInfo, b: FileInfo): (r: bool)
    ensures r <==> a == b
  {
    a.name == b.name && a.sizeBytes == b.sizeBytes && a.path == b.path && a.s3Key == b.s3Key
  }

  function ProbeEqual(a: ProbeResult, b: ProbeResult): (r: bool)
    ensures r <==> a == b
  {
    a.durationSeconds == b.durationSeconds && a.videoCodec == b.videoCodec
    && a.audioCodec == b.audioCodec && a.width == b.width && a.height == b.height
    && a.frameCount == b.frameCount && a.frameRate == b.frameRate
  }

  function ResultEqual(a: TranscodeResult, b: TranscodeResult): (r: bool)
    ensures r <==> a == b
  {
    a.outputPath == b.outputPath && a.outputSizeBytes == b.outputSizeBytes
    && a.durationSeconds == b.durationSeconds && a.error == b.error
    && a.outputS3Key == b.outputS3Key
  }

  function OptionEqual<T>(a: Option<T>, b: Option<T>, eq: (T, T) -> bool): bool {
    match (a, b)
    case (None, None) => true
    case (Some(x), Some(y)) => eq(x, y)
    case _ => false
  }

  /** The synthesised `Equatable` conformance: field by field, recursing into
      the nested records; it coincides with structural equality. */
  function JobEqual(a: Job, b: Job): (r: bool)
    ensures r <==> a == b
  {
    a.id == b.id && a.status == b.status && FileInfoEqual(a.file, b.file)
    && a.createdAt == b.createdAt && a.startedAt == b.startedAt
    && a.completedAt == b.completedAt && a.progress == b.progress
    && OptionEqual(a.probe, b.probe, ProbeEqual)
    && OptionEqual(a.result, b.result, ResultEqual)
    && a.telegramMessageId == b.telegramMessageId
  }

  // ----- collections keyed by identifier -----

  predicate HasId(jobs: seq<Job>, id: string) {
    exists k :: 0 <= k < |jobs| && jobs[k].id == id
  }

  /** No identifier occurs twice. */
  predicate UniqueIds(jobs: seq<Job>) {
    forall i, k :: 0 <= i < k < |jobs| ==> jobs[i].id != jobs[k].id
  }

  /** `firstIndex(where: { $0.id == id })`. */
  function FirstIndex(jobs: seq<Job>, id: string): (r: Option<nat>)
    ensures r.Some? ==> r.value < |jobs| && jobs[r.value].id == id
    ensures r.Some? ==> forall k :: 0 <= k < r.value ==> jobs[k].id != id
    ensures r.None? <==> !HasId(jobs, id)
    decreases |jobs|
  {
    if |jobs| == 0 then None
    else if jobs[0].id == id then Some(0)
    else
      match FirstIndex(jobs[1..], id)
      case None => None
      case Some(i) => Some(i + 1)
  }

  /** In a collection with unique identifiers, any index holding `id` is the
      first one. */
  lemma FirstIndexUnique(jobs: seq<Job>, id: string, k: nat)
    requires UniqueIds(jobs)
    requires k < |jobs| && jobs[k].id == id
    ensures FirstIndex(jobs, id) == Some(k)
  {
  }

  /** The job a collection holds under `id`: the first one with that id. */
  function Lookup(jobs: seq<Job>, id: string): (r: Option<Job>)
    ensures r.Some? <==> HasId(jobs, id)
    ensures r.Some? ==> r.value in jobs && r.value.id == id
  {
    match FirstIndex(jobs, id)
    case None => None
    case Some(i) => Some(jobs[i])
  }

  /** The collection with every job of identifier `id` removed, order kept. */
  function Without(jobs: seq<Job>, id: string): (r: seq<Job>)
    ensures |r| <= |jobs|
    decreases |jobs|
  {
    if |jobs| == 0 then []
    else if jobs[0].id == id then Without(jobs[1..], id)
    else [jobs[0]] + Without(jobs[1..], id)
  }

  /** `Without` keeps exactly the jobs of other identifiers. */
  lemma {:induction false} WithoutMembers(jobs: seq<Job>, id: string, j: Job)
    ensures j in Without(jobs, id) <==> j in jobs && j.id != id
    decreases |jobs|
  {
    if |jobs| > 0 {
      WithoutMembers(jobs[1..], id, j);
      assert jobs == [jobs[0]] + jobs[1..];
    }
  }

  // ----- identifier bookkeeping -----

  lemma HasIdCons(j: Job, rest: seq<Job>, id: string)
    ensures HasId([j] + rest, id) <==> j.id == id || HasId(rest, id)
  {
    var r := [j] + rest;
    if HasId(rest, id) {
      var k :| 0 <= k < |rest| && rest[k].id == id;
      assert r[k + 1].id == id;
    }
    if j.id == id {
      assert r[0].id == id;
    }
    if HasId(r, id) && j.id != id {
      var k :| 0 <= k < |r| && r[k].id == id;
      assert rest[k - 1].id == id;
    }
  }

  lemma HasIdSnoc(rest: seq<Job>, j: Job, id: string)
    ensures HasId(rest + [j], id) <==> j.id == id || HasId(rest, id)
  {
    var r := rest + [j];
    if HasId(rest, id) {
      var k :| 0 <= k < |rest| && rest[k].id == id;
      assert r[k].id == id;
    }
    if j.id == id {
      assert r[|rest|].id == id;
    }
  }

  /** Two collections with the same identifier at every position hold the
      same identifiers. */
  lemma HasIdSameIds(jobs: seq<Job>, r: seq<Job>, id: string)
    requires |r| == |jobs|
    requires forall k :: 0 <= k < |jobs| ==> r[k].id == jobs[k].id
    ensures HasId(r, id) <==> HasId(jobs, id)
  {
    if HasId(jobs, id) {
      var k :| 0 <= k < |jobs| && jobs[k].id == id;
      assert r[k].id == id;
    }
  }

  /** Removing one position of a collection with unique identifiers removes
      exactly that position's identifier. */
  lemma HasIdRemoveAt(jobs: seq<Job>, i: nat, id: string)
    requires UniqueIds(jobs) && i < |jobs|
    ensures HasId(RemoveAt(jobs, i), id) <==> HasId(jobs, id) && id != jobs[i].id
    ensures UniqueIds(RemoveAt(jobs, i))
  {
    var r := RemoveAt(jobs, i);
    if HasId(jobs, id) && id != jobs[i].id {
      var k :| 0 <= k < |jobs| && jobs[k].id == id;
      if k < i { assert r[k].id == id; } else { assert r[k - 1].id == id; }
    }
    if HasId(r, id) {
      var k :| 0 <= k < |r| && r[k].id == id;
      if k < i { assert jobs[k].id == id; } else { assert jobs[k + 1].id == id; }
    }
    forall a, b | 0 <= a < b < |r| ensures r[a].id != r[b].id {
      var ja := if a < i then a else a + 1;
      var jb := if b < i then b else b + 1;
      assert r[a] == jobs[ja] && r[b] == jobs[jb];
    }
  }

  lemma UniqueCons(j: Job, rest: seq<Job>)
    requires UniqueIds(rest) && !HasId(rest, j.id)
    ensures UniqueIds([j] + rest)
  {
    var r := [j] + rest;
    forall a, b | 0 <= a < b < |r| ensures r[a].id != r[b].id {
      assert r[b] == rest[b - 1];
      if a > 0 { assert r[a] == rest[a - 1]; }
    }
  }

  lemma UniqueSnoc(rest: seq<Job>, j: Job)
    requires UniqueIds(rest) && !HasId(rest, j.id)
    ensures UniqueIds(rest + [j])
  {
    var r := rest + [j];
    forall a, b | 0 <= a < b < |r| ensures r[a].id != r[b].id {
      assert r[a] == rest[a];
      if b < |rest| { assert r[b] == rest[b]; }
    }
  }

  /** `remove(at:)`. */
  function RemoveAt<T>(s: seq<T>, i: nat): (r: seq<T>)
    requires i < |s|
    ensures |r| == |s| - 1
    ensures forall k :: 0 <= k < i ==> r[k] == s[k]
    ensures forall k :: i <= k < |r| ==> r[k] == s[k + 1]
  {
    s[..i] + s[i + 1..]
  }
}
