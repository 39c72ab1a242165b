/** `JobEventReducer`: merges one push event into the job collection. An
    upsert replaces the job with the same identifier in place (moving it to
    the front for `new_file`) or adds it (at the front for `new_file`, at the
    end otherwise); progress and skip events update the job they name, if
    any, and nothing else. */
module JobEventReducer {
  import opened Wrappers
  import opened JobModel
  import opened WebSocketClient

  /** The status after a progress report: a job not yet running is now
      running; any other status is kept. */
  function StatusAfterProgress(s: JobStatus): (r: JobStatus)
    ensures s in {Pending, Confirmed} ==> r == Processing
    ensures !(s in {Pending, Confirmed}) ==> r == s
  {
    if s == Confirmed || s == Pending then Processing else s
  }

  /** The job at index `i` replaced by `job` and moved to the front. */
  function MoveToFront(job: Job, jobs: seq<Job>, i: nat): (r: seq<Job>)
    requires i < |jobs|
    ensures |r| == |jobs| && r[0] == job
    ensures forall k :: 0 <= k < i ==> r[k + 1] == jobs[k]
    ensures forall k :: i < k < |jobs| ==> r[k] == jobs[k]
  {
    [job] + RemoveAt(jobs[i := job], i)
  }

  /** `upsert(_:in:insertAtTop:)`. */
  function Upsert(job: Job, jobs: seq<Job>, insertAtTop: bool): (r: seq<Job>)
    ensures |r| == if HasId(jobs, job.id) then |jobs| else |jobs| + 1
    ensures match FirstIndex(jobs, job.id)
      // moved to the front, the others keeping their order
      case Some(i) => insertAtTop ==>
        && r[0] == job
        && (forall k :: 0 <= k < i ==> r[k + 1] == jobs[k])
        && (forall k :: i < k < |jobs| ==> r[k] == jobs[k])
      // inserted at the front
      case None => insertAtTop ==>
        r[0] == job && forall k :: 0 <= k < |jobs| ==> r[k + 1] == jobs[k]
    ensures match FirstIndex(jobs, job.id)
      // replaced in place
      case Some(i) => !insertAtTop ==>
        r[i] == job && forall k :: 0 <= k < |jobs| && k != i ==> r[k] == jobs[k]
      // appended at the end
      case None => !insertAtTop ==>
        r[|jobs|] == job && forall k :: 0 <= k < |jobs| ==> r[k] == jobs[k]
  {
    match FirstIndex(jobs, job.id)
    case Some(i) =>
      if insertAtTop then MoveToFront(job, jobs, i) else jobs[i := job]
    case None =>
      if insertAtTop then [job] + jobs else jobs + [job]
  }

  /** Replacing a job by one of the same identifier, in place or moved to
      the front, keeps the identifiers and their uniqueness. */
  lemma ReplaceIds(job: Job, jobs: seq<Job>, i: nat, id: string)
    requires i < |jobs| && jobs[i].id == job.id
    ensures HasId(jobs[i := job], id) <==> HasId(jobs, id)
    ensures HasId(MoveToFront(job, jobs, i), id) <==> HasId(jobs, id)
    ensures UniqueIds(jobs) ==> UniqueIds(jobs[i := job]) && UniqueIds(MoveToFront(job, jobs, i))
  {
    var replaced := jobs[i := job];
    HasIdSameIds(jobs, replaced, id);
    var r := MoveToFront(job, jobs, i);
    var rest := RemoveAt(jobs, i);
    assert r == [job] + rest;
    HasIdCons(job, rest, id);
    if UniqueIds(jobs) {
      assert UniqueIds(replaced);
      HasIdRemoveAt(jobs, i, id);
      HasIdRemoveAt(jobs, i, job.id);
      UniqueCons(job, rest);
    } else {
      if HasId(jobs, id) && id != job.id {
        var k :| 0 <= k < |jobs| && jobs[k].id == id;
        if k < i { assert r[k + 1].id == id; } else { assert r[k].id == id; }
      }
      if HasId(r, id) && id != job.id {
        var k :| 0 <= k < |r| && r[k].id == id;
        if k <= i { assert jobs[k - 1].id == id; } else { assert jobs[k].id == id; }
      }
    }
  }

  /** After an upsert the collection holds the job, and its identifiers are
      the old ones plus the job's; with unique identifiers before, they stay
      unique. */
  lemma UpsertIds(job: Job, jobs: seq<Job>, insertAtTop: bool, id: string)
    ensures job in Upsert(job, jobs, insertAtTop)
    ensures HasId(Upsert(job, jobs, insertAtTop), id) <==> HasId(jobs, id) || id == job.id
    ensures UniqueIds(jobs) ==> UniqueIds(Upsert(job, jobs, insertAtTop))
  {
    var r := Upsert(job, jobs, insertAtTop);
    match FirstIndex(jobs, job.id)
    case Some(i) =>
      ReplaceIds(job, jobs, i, id);
      if insertAtTop { assert r[0] == job; } else { assert r[i] == job; }
    case None =>
      if insertAtTop {
        HasIdCons(job, jobs, id);
        assert r[0] == job;
        if UniqueIds(jobs) { UniqueCons(job, jobs); }
      } else {
        HasIdSnoc(jobs, job, id);
        assert r[|jobs|] == job;
        if UniqueIds(jobs) { UniqueSnoc(jobs, job); }
      }
  }

  /** The `progress` case: the named job takes the reported progress and, if
      it had not started, the `processing` status. */
  function ApplyProgress(id: string, value: real, jobs: seq<Job>): (r: seq<Job>)
    ensures !HasId(jobs, id) ==> r == jobs
    ensures |r| == |jobs|
    ensures HasId(jobs, id) ==>
      var i := FirstIndex(jobs, id).value;
      && r[i].progress == value
      && r[i].status == StatusAfterProgress(jobs[i].status)
      && r[i] == jobs[i].(progress := value, status := r[i].status)
      && forall k :: 0 <= k < |jobs| && k != i ==> r[k] == jobs[k]
  {
    match FirstIndex(jobs, id)
    case None => jobs
    case Some(i) => jobs[i := jobs[i].(progress := value, status := StatusAfterProgress(jobs[i].status))]
  }

  /** The `skipped` case: the named job becomes `skipped` whatever it was. */
  function ApplySkipped(id: string, jobs: seq<Job>): (r: seq<Job>)
    ensures !HasId(jobs, id) ==> r == jobs
    ensures |r| == |jobs|
    ensures HasId(jobs, id) ==>
      var i := FirstIndex(jobs, id).value;
      && r[i].status == JobStatus.Skipped
      && r[i] == jobs[i].(status := JobStatus.Skipped)
      && forall k :: 0 <= k < |jobs| && k != i ==> r[k] == jobs[k]
  {
    match FirstIndex(jobs, id)
    case None => jobs
    case Some(i) => jobs[i := jobs[i].(status := JobStatus.Skipped)]
  }

  /** Events that carry a whole job. */
  predicate IsUpsert(e: Event) {
    e.NewFile? || e.Completed? || e.Failed?
  }

  /** The identifier an event is about. */
  function EventId(e: Event): string {
    if IsUpsert(e) then e.job.id else e.jobId
  }

  /** `apply(event:to:)`. The collection grows by at most one job, and only
      when an upsert brings a new identifier. */
  function Apply(e: Event, jobs: seq<Job>): (r: seq<Job>)
    ensures |jobs| <= |r| <= |jobs| + 1
    ensures |r| == |jobs| + 1 <==> IsUpsert(e) && !HasId(jobs, e.job.id)
    ensures !IsUpsert(e) && !HasId(jobs, e.jobId) ==> r == jobs
  {
    match e
    case NewFile(j) => Upsert(j, jobs, true)
    case Completed(j) => Upsert(j, jobs, false)
    case Failed(j) => Upsert(j, jobs, false)
    case Progress(id, v) => ApplyProgress(id, v, jobs)
    case Skipped(id) => ApplySkipped(id, jobs)
  }

  // ----- properties across calls -----

  /** An event adds at most the identifier of the job it carries, removes
      none, and keeps identifiers unique. */
  lemma ApplyIds(e: Event, jobs: seq<Job>, id: string)
    ensures HasId(Apply(e, jobs), id) <==> HasId(jobs, id) || (IsUpsert(e) && id == e.job.id)
    ensures UniqueIds(jobs) ==> UniqueIds(Apply(e, jobs))
  {
    var r := Apply(e, jobs);
    if IsUpsert(e) {
      UpsertIds(e.job, jobs, e.NewFile?, id);
    } else {
      assert forall k :: 0 <= k < |jobs| ==> r[k].id == jobs[k].id;
      HasIdSameIds(jobs, r, id);
    }
  }

  /** Every event is idempotent: delivering it twice is the same as delivering
      it once (the stream is at-least-once). No uniqueness is needed. */
  lemma ApplyIdempotent(e: Event, jobs: seq<Job>)
    ensures Apply(e, Apply(e, jobs)) == Apply(e, jobs)
  {
    var r := Apply(e, jobs);
    var id := EventId(e);
    match e
    case NewFile(j) =>
      assert FirstIndex(r, j.id) == Some(0);
      assert r[0 := j] == r;
      assert MoveToFront(j, r, 0) == [j] + RemoveAt(r, 0) == r;
    case Completed(j) =>
      var i := FirstIndex(r, j.id).value;
      if HasId(jobs, j.id) {
        assert i == FirstIndex(jobs, j.id).value;
      } else {
        assert i == |jobs|;
      }
      assert r[i := j] == r;
    case Failed(j) =>
      var i := FirstIndex(r, j.id).value;
      if HasId(jobs, j.id) {
        assert i == FirstIndex(jobs, j.id).value;
      } else {
        assert i == |jobs|;
      }
      assert r[i := j] == r;
    case Progress(_, v) =>
      if HasId(jobs, id) {
        var i := FirstIndex(jobs, id).value;
        assert FirstIndex(r, id) == Some(i);
        var r2 := Apply(e, r);
        assert r2[i] == r[i];
        assert r2 == r;
      }
    case Skipped(_) =>
      if HasId(jobs, id) {
        var i := FirstIndex(jobs, id).value;
        assert FirstIndex(r, id) == Some(i);
        var r2 := Apply(e, r);
        assert r2[i] == r[i];
        assert r2 == r;
      }
  }

  /** Filtering out an absent identifier changes nothing. */
  lemma {:induction false} WithoutAbsent(jobs: seq<Job>, id: string)
    requires !HasId(jobs, id)
    ensures Without(jobs, id) == jobs
    decreases |jobs|
  {
    if |jobs| > 0 {
      assert jobs == [jobs[0]] + jobs[1..];
      HasIdCons(jobs[0], jobs[1..], id);
      WithoutAbsent(jobs[1..], id);
    }
  }

  /** Removing the only occurrence of an identifier is filtering it out. */
  lemma {:induction false} RemoveFirstIsWithout(jobs: seq<Job>, id: string)
    requires UniqueIds(jobs) && HasId(jobs, id)
    ensures RemoveAt(jobs, FirstIndex(jobs, id).value) == Without(jobs, id)
    decreases |jobs|
  {
    var tail := jobs[1..];
    assert jobs == [jobs[0]] + tail;
    assert UniqueIds(tail);
    if jobs[0].id == id {
      assert RemoveAt(jobs, 0) == tail;
      HasIdRemoveAt(jobs, 0, id);
      WithoutAbsent(tail, id);
    } else {
      HasIdCons(jobs[0], tail, id);
      RemoveFirstIsWithout(tail, id);
      var i := FirstIndex(jobs, id).value;
      assert FirstIndex(tail, id) == Some(i - 1);
      assert RemoveAt(jobs, i) == [jobs[0]] + RemoveAt(tail, i - 1);
    }
  }

  /** A `new_file` event, whether or not its job was known, leaves the job at
      the front followed by every other job in its previous order. */
  lemma NewFileMovesToFront(j: Job, jobs: seq<Job>)
    requires UniqueIds(jobs)
    ensures Apply(NewFile(j), jobs) == [j] + Without(jobs, j.id)
  {
    if HasId(jobs, j.id) {
      var i := FirstIndex(jobs, j.id).value;
      RemoveFirstIsWithout(jobs, j.id);
      assert MoveToFront(j, jobs, i) == [j] + RemoveAt(jobs, i);
    } else {
      WithoutAbsent(jobs, j.id);
    }
  }

  /** After a `new_file` event the list holds the event's job and, of the
      jobs before, exactly those with other identifiers. */
  lemma NewFileMembers(j: Job, jobs: seq<Job>, k: Job)
    requires UniqueIds(jobs)
    ensures k in Apply(NewFile(j), jobs) <==> k == j || (k in jobs && k.id != j.id)
  {
    NewFileMovesToFront(j, jobs);
    WithoutMembers(jobs, j.id, k);
  }

  /** The record an event leaves under its own identifier, given the record
      found there before. */
  function Expected(e: Event, before: Option<Job>): Option<Job> {
    match e
    case NewFile(j) => Some(j)
    case Completed(j) => Some(j)
    case Failed(j) => Some(j)
    case Progress(_, v) =>
      (match before
       case None => None
       case Some(b) => Some(b.(progress := v, status := StatusAfterProgress(b.status))))
    case Skipped(_) =>
      (match before
       case None => None
       case Some(b) => Some(b.(status := JobStatus.Skipped)))
  }

  /** Seen as a map from identifier to job, an event rewrites the entry of its
      own identifier as `Expected` says and leaves every other entry alone. */
  lemma ApplyLookup(e: Event, jobs: seq<Job>, other: string)
    requires UniqueIds(jobs)
    ensures Lookup(Apply(e, jobs), EventId(e)) == Expected(e, Lookup(jobs, EventId(e)))
    ensures other != EventId(e) ==> Lookup(Apply(e, jobs), other) == Lookup(jobs, other)
  {
    var r := Apply(e, jobs);
    var id := EventId(e);
    ApplyIds(e, jobs, id);
    ApplyIds(e, jobs, other);
    // Under unique identifiers a lookup is fixed by any one position.
    if IsUpsert(e) {
      UpsertIds(e.job, jobs, e.NewFile?, id);
      var k: nat :| k < |r| && r[k] == e.job;
      FirstIndexUnique(r, id, k);
    } else if HasId(jobs, id) {
      var i := FirstIndex(jobs, id).value;
      FirstIndexUnique(r, id, i);
    }
    if other != id && HasId(jobs, other) {
      var i := FirstIndex(jobs, other).value;
      var k: nat;
      if e.NewFile? && HasId(jobs, id) {
        var p := FirstIndex(jobs, id).value;
        k := if i < p then i + 1 else i;
      } else if e.NewFile? {
        k := i + 1;
      } else {
        k := i;
      }
      assert r[k] == jobs[i];
      FirstIndexUnique(r, other, k);
    }
  }
}
