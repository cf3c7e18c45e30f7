/** The `jobs` table: one row update is one atomic step. */
module JobTable {
  import opened Protocol

  datatype Job = Job(
    platform: Platform,
    status: JobStatus,
    runnerId: Option<Uuid>,
    cpus: Int32,
    memoryMb: Int64,
    retriedJobId: Option<Uuid>,
    previousJobId: Option<Uuid>)

  type Rows = map<Uuid, Job>

  /** Queued, then running, then complete. */
  function Rank(status: JobStatus): nat {
    match status
    case Queued => 0
    case Running => 1
    case Complete(_) => 2
  }

  // ---------- The row updates, as functions of the table ----------

  function NewJob(platform: Platform, cpus: Option<Int32>, memoryMb: Option<Int64>): Job {
    Job(platform, Queued, None,
        if cpus.Some? then cpus.value else 2,
        if memoryMb.Some? then memoryMb.value else 256,
        None, None)
  }

  /** UPDATE jobs SET status WHERE id: no row changes when the id is absent. */
  function SetStatus(rows: Rows, id: Uuid, status: JobStatus): Rows {
    if id in rows then rows[id := rows[id].(status := status)] else rows
  }

  predicate Claimable(rows: Rows, id: Uuid) {
    id in rows && rows[id].status.Queued?
  }

  /** UPDATE jobs SET status = running, runner_id WHERE id AND status = queued. */
  function Claim(rows: Rows, id: Uuid, runner: Uuid): Rows {
    if Claimable(rows, id) then rows[id := rows[id].(status := Running, runnerId := Some(runner))] else rows
  }

  predicate Cancellable(rows: Rows, id: Uuid) {
    id in rows && !rows[id].status.Complete?
  }

  function Cancel(rows: Rows, id: Uuid): Rows {
    if Cancellable(rows, id) then SetStatus(rows, id, Complete(Cancelled)) else rows
  }

  predicate Retryable(job: Job) {
    job.status.Complete? && !job.status.completion.Success?
  }

  function RetryOf(original: Job, id: Uuid): Job {
    Job(original.platform, Queued, None, original.cpus, original.memoryMb, None, Some(id))
  }

  /** The retry transaction. `original` is the copy the handler read earlier, possibly out of date by now. */
  function Retry(rows: Rows, id: Uuid, original: Job, newId: Uuid): Rows
    requires id in rows && newId !in rows
  {
    rows[newId := RetryOf(original, id)][id := rows[id].(retriedJobId := Some(newId))]
  }

  function ToVm(job: Job): VM {
    VM(SignedToUInt64(job.cpus), SignedToUInt64(job.memoryMb), job.platform)
  }

  /** Running rows; which of them are overdue depends on the clock. */
  function RunningIds(rows: Rows): set<Uuid> {
    set id | id in rows && rows[id].status.Running?
  }

  function QueueCandidates(rows: Rows, platform: Platform, locked: set<Uuid>): set<Uuid> {
    set id | id in rows && id !in locked && rows[id].status.Queued? && rows[id].runnerId.None?
             && rows[id].platform == platform
  }

  ghost function LeastId(ids: set<Uuid>): (least: Uuid)
    requires ids != {}
    ensures least in ids && forall id | id in ids :: least <= id
  {
    var id :| id in ids;
    if ids == {id} then id
    else
      assert ids == {id} + (ids - {id}) && ids - {id} != {};
      var rest := LeastId(ids - {id});
      if id <= rest then id else rest
  }

  /** Oldest queued, unassigned, unlocked row of a platform. */
  ghost function FindQueued(rows: Rows, platform: Platform, locked: set<Uuid>): (found: Option<Uuid>)
    ensures found.Some? ==>
              && found.value in rows && found.value !in locked && rows[found.value].status == Queued
              && rows[found.value].runnerId == None && rows[found.value].platform == platform
    ensures forall id | id in rows && id !in locked && rows[id].status == Queued && rows[id].runnerId == None
                        && rows[id].platform == platform ::
              found.Some? && found.value <= id
  {
    var candidates := QueueCandidates(rows, platform, locked);
    assert forall id | id in rows && id !in locked && rows[id].status == Queued && rows[id].runnerId == None
                       && rows[id].platform == platform :: id in candidates;
    if candidates == {} then None else Some(LeastId(candidates))
  }

  /** A new job can be claimed, and the queue query of its platform can find it; no other row changes. */
  lemma NewJobIsOffered(rows: Rows, id: Uuid, platform: Platform, cpus: Option<Int32>, memoryMb: Option<Int64>)
    requires id !in rows
    ensures var after := rows[id := NewJob(platform, cpus, memoryMb)];
            Claimable(after, id) && id in QueueCandidates(after, platform, {})
  {
  }

  /** So can a retried one, whatever the original came to; and it runs with the original's configuration. */
  lemma RetriedJobIsOffered(rows: Rows, id: Uuid, original: Job, newId: Uuid)
    requires id in rows && newId !in rows
    ensures var after := Retry(rows, id, original, newId);
            && Claimable(after, newId) && newId in QueueCandidates(after, original.platform, {})
            && ToVm(after[newId]) == ToVm(original)
            && after[newId].previousJobId == Some(id) && after[id].retriedJobId == Some(newId)
            && forall other | other in rows && other != id :: after[other] == rows[other]
  {
  }

  /** A claim takes a queued job out of every queue and lets nobody else claim it. */
  lemma ClaimTakesFromQueue(rows: Rows, id: Uuid, runner: Uuid, other: Uuid)
    requires id in rows && rows[id].status == Queued
    ensures var after := Claim(rows, id, runner);
            && after[id].status == Running && after[id].runnerId == Some(runner)
            && Claim(after, id, other) == after
            && forall platform, locked :: id !in QueueCandidates(after, platform, locked)
  {
  }

  // ---------- What no update may undo ----------

  predicate SameConfig(a: Job, b: Job) {
    a.platform == b.platform && a.cpus == b.cpus && a.memoryMb == b.memoryMb
  }

  predicate JobEvolves(a: Job, b: Job) {
    && SameConfig(a, b)
    && a.previousJobId == b.previousJobId
    && Rank(a.status) <= Rank(b.status)
    && (a.runnerId.Some? ==> b.runnerId == a.runnerId)
    && (a.retriedJobId.Some? ==> b.retriedJobId.Some?)
  }

  ghost predicate Evolves(a: Rows, b: Rows) {
    forall id | id in a :: id in b && JobEvolves(a[id], b[id])
  }

  predicate AssignmentOk(job: Job) {
    && (job.status.Queued? ==> job.runnerId.None?)
    && (job.status.Running? ==> job.runnerId.Some?)
  }

  ghost predicate AssignmentsOk(rows: Rows) {
    forall id | id in rows :: AssignmentOk(rows[id])
  }

  /** With the assignment invariant the `runner_id IS NULL` filter of the queue query excludes nothing. */
  lemma NullFilterIsRedundant(rows: Rows, platform: Platform, locked: set<Uuid>)
    requires AssignmentsOk(rows)
    ensures QueueCandidates(rows, platform, locked)
         == set id | id in rows && id !in locked && rows[id].status.Queued? && rows[id].platform == platform
  {
    forall id | id in rows && rows[id].status.Queued? ensures rows[id].runnerId.None? {
      assert AssignmentOk(rows[id]);
    }
  }

  /** Of the updates only the unconditional status write can touch a finished row's verdict, and it does so exactly
      if it writes another one. */
  lemma FinishedRowKeptIff(rows: Rows, id: Uuid, status: JobStatus, runner: Uuid, original: Job, newId: Uuid)
    requires id in rows && rows[id].status.Complete? && newId !in rows
    ensures SetStatus(rows, id, status) == rows <==> status == rows[id].status
    ensures Claim(rows, id, runner) == rows && Cancel(rows, id) == rows
    ensures Retry(rows, id, original, newId)[id].status == rows[id].status
  {
    if status == rows[id].status {
      assert SetStatus(rows, id, status) == rows;
    } else {
      assert SetStatus(rows, id, status)[id] != rows[id];
    }
  }

  // ---------- Retry links ----------

  ghost predicate LinksOk(rows: Rows) {
    && (forall id | id in rows && rows[id].previousJobId.Some? ::
          var p := rows[id].previousJobId.value;
          p in rows && SameConfig(rows[id], rows[p]) && rows[p].retriedJobId.Some?)
    && (forall id | id in rows && rows[id].retriedJobId.Some? ::
          var k := rows[id].retriedJobId.value;
          k in rows && rows[k].previousJobId == Some(id))
  }

  ghost predicate IsDepth(rows: Rows, depth: map<Uuid, nat>) {
    && depth.Keys == rows.Keys
    && forall id | id in rows && rows[id].previousJobId.Some? ::
         var p := rows[id].previousJobId.value;
         p in depth && depth[id] == depth[p] + 1
  }

  ghost predicate Forest(rows: Rows) {
    LinksOk(rows) && exists depth :: IsDepth(rows, depth)
  }

  /** Follow `previous_job_id` n times. */
  ghost function Ancestor(rows: Rows, id: Uuid, n: nat): Option<Uuid>
    decreases n
  {
    if id !in rows then None
    else if n == 0 then Some(id)
    else if rows[id].previousJobId.None? then None
    else Ancestor(rows, rows[id].previousJobId.value, n - 1)
  }

  ghost predicate SameLinks(a: Rows, b: Rows) {
    && a.Keys == b.Keys
    && forall id | id in a ::
         && SameConfig(a[id], b[id])
         && a[id].previousJobId == b[id].previousJobId
         && a[id].retriedJobId == b[id].retriedJobId
  }

  lemma SameLinksKeepForest(a: Rows, b: Rows)
    requires Forest(a) && SameLinks(a, b)
    ensures Forest(b)
  {
    var depth :| IsDepth(a, depth);
    assert IsDepth(b, depth);
  }

  lemma InsertRootKeepsForest(rows: Rows, id: Uuid, job: Job)
    requires Forest(rows) && id !in rows
    requires job.previousJobId.None? && job.retriedJobId.None?
    ensures Forest(rows[id := job])
  {
    var depth :| IsDepth(rows, depth);
    var after := rows[id := job];
    forall i | i in after && after[i].previousJobId.Some? ensures i in rows && after[i] == rows[i] {
    }
    assert IsDepth(after, depth[id := 0]);
    assert LinksOk(after);
  }

  /** Also when the handler's copy is stale and when the same job is retried again. */
  lemma RetryKeepsForest(rows: Rows, id: Uuid, original: Job, newId: Uuid)
    requires Forest(rows) && id in rows && newId !in rows
    requires SameConfig(original, rows[id])
    ensures Forest(Retry(rows, id, original, newId))
  {
    var depth :| IsDepth(rows, depth);
    assert IsDepth(Retry(rows, id, original, newId), depth[newId := depth[id] + 1]);
  }

  lemma {:induction false} AncestorDepth(rows: Rows, depth: map<Uuid, nat>, id: Uuid, n: nat)
    requires LinksOk(rows) && IsDepth(rows, depth) && id in rows
    ensures n <= depth[id] && Ancestor(rows, id, n).Some? ==>
              && Ancestor(rows, id, n).value in rows
              && depth[Ancestor(rows, id, n).value] == depth[id] - n
              && SameConfig(rows[Ancestor(rows, id, n).value], rows[id])
    ensures n > depth[id] ==> Ancestor(rows, id, n).None?
    decreases n
  {
    if n > 0 && rows[id].previousJobId.Some? {
      AncestorDepth(rows, depth, rows[id].previousJobId.value, n - 1);
    }
  }

  lemma {:induction false} RootExists(rows: Rows, depth: map<Uuid, nat>, id: Uuid) returns (n: nat)
    requires LinksOk(rows) && IsDepth(rows, depth) && id in rows
    ensures Ancestor(rows, id, n).Some? && Ancestor(rows, id, n).value in rows
    ensures rows[Ancestor(rows, id, n).value].previousJobId.None?
    decreases depth[id]
  {
    if rows[id].previousJobId.None? {
      n := 0;
    } else {
      var m := RootExists(rows, depth, rows[id].previousJobId.value);
      n := m + 1;
    }
  }

  /** Retry chains never cycle, every chain ends in a root, and a chain shares one VM configuration. */
  lemma RetryChains(rows: Rows, id: Uuid)
    requires Forest(rows) && id in rows
    ensures forall n: nat | n > 0 :: Ancestor(rows, id, n) != Some(id)
    ensures exists n: nat ::
              && Ancestor(rows, id, n).Some? && Ancestor(rows, id, n).value in rows
              && rows[Ancestor(rows, id, n).value].previousJobId.None?
    ensures forall n: nat | Ancestor(rows, id, n).Some? ::
              && Ancestor(rows, id, n).value in rows
              && SameConfig(rows[Ancestor(rows, id, n).value], rows[id])
  {
    var depth :| IsDepth(rows, depth);
    forall n: nat { AncestorDepth(rows, depth, id, n); }
    var n := RootExists(rows, depth, id);
  }

  /** `retried_job_id` is null exactly for the jobs nobody retried. */
  lemma RetriedIsNullIffNeverRetried(rows: Rows, id: Uuid)
    requires Forest(rows) && id in rows
    ensures rows[id].retriedJobId.None? <==> forall k | k in rows :: rows[k].previousJobId != Some(id)
  {
  }

  // ---------- The configuration a caller asked for ----------

  /** The row created for a requested VM stores the counts in signed columns. */
  function JobForVm(vm: VM): Job {
    NewJob(vm.platform, Some(UInt64ToInt32(vm.cpuCount)), Some(UInt64ToInt64(vm.memorySizeMb)))
  }

  /** The VM built from the row is the requested one iff the CPU count survives the 32-bit column. */
  lemma RequestedVmSurvives(vm: VM)
    ensures ToVm(JobForVm(vm)) == vm <==> vm.cpuCount < TWO_31 || vm.cpuCount >= TWO_64 - TWO_31
  {
    if vm.cpuCount < TWO_31 || vm.cpuCount >= TWO_64 - TWO_31 {
      if vm.cpuCount >= TWO_64 - TWO_31 {
        assert vm.cpuCount % TWO_32 == vm.cpuCount - (TWO_64 - TWO_32);
      }
    }
  }

  // ---------- The table as the backend updates it ----------

  class Jobs {
    var rows: Rows

    constructor ()
      ensures rows == map[]
    {
      rows := map[];
    }

    method New(id: Uuid, platform: Platform, cpus: Option<Int32>, memoryMb: Option<Int64>) returns (job: Job)
      requires id !in rows
      modifies this
      ensures rows == old(rows)[id := job]
      ensures job == NewJob(platform, cpus, memoryMb)
      ensures job.status == Queued && job.runnerId == None && job.platform == platform
      ensures (cpus == None ==> job.cpus == 2) && (memoryMb == None ==> job.memoryMb == 256)
      ensures (cpus.Some? ==> job.cpus == cpus.value) && (memoryMb.Some? ==> job.memoryMb == memoryMb.value)
    {
      var c, m := 2, 256;
      if cpus.Some? { c := cpus.value; }
      if memoryMb.Some? { m := memoryMb.value; }
      job := Job(platform, Queued, None, c, m, None, None);
      rows := rows[id := job];
    }

    /** Returns the number of updated rows: one for the single winner, zero otherwise. */
    method ClaimJobForRunner(id: Uuid, runner: Uuid) returns (updated: nat)
      modifies this
      ensures rows == Claim(old(rows), id, runner)
      ensures updated == if id in old(rows) && old(rows)[id].status == Queued then 1 else 0
      ensures updated == 1 ==> rows[id].status == Running && rows[id].runnerId == Some(runner)
      ensures updated == 0 ==> rows == old(rows)
    {
      updated := 0;
      if id in rows && rows[id].status == Queued {
        rows := rows[id := rows[id].(status := Running, runnerId := Some(runner))];
        updated := 1;
      }
    }

    method UpdateJobStatus(id: Uuid, status: JobStatus)
      modifies this
      ensures rows == SetStatus(old(rows), id, status)
      ensures id in old(rows) ==> id in rows && rows[id] == old(rows)[id].(status := status)
      ensures forall other | other in old(rows) && other != id :: other in rows && rows[other] == old(rows)[other]
    {
      if id in rows {
        rows := rows[id := rows[id].(status := status)];
      }
    }

    method CompleteJob(id: Uuid, completion: CompletionStatus)
      modifies this
      ensures rows == SetStatus(old(rows), id, Complete(completion))
      ensures id in old(rows) ==> id in rows && rows[id].status == Complete(completion)
    {
      UpdateJobStatus(id, Complete(completion));
    }

    /** None when there is no such row; otherwise whether it was cancelled, and the row as it is now. */
    method CancelJob(id: Uuid) returns (outcome: Option<(bool, Job)>)
      modifies this
      ensures rows == Cancel(old(rows), id)
      ensures outcome.None? <==> id !in old(rows)
      ensures outcome.Some? ==> id in rows && outcome.value.1 == rows[id]
      ensures outcome.Some? ==> (outcome.value.0 <==> old(rows)[id].status == Queued || old(rows)[id].status == Running)
      ensures outcome.Some? && outcome.value.0 ==> rows[id].status == Complete(Cancelled)
      ensures outcome.Some? && !outcome.value.0 ==> rows == old(rows)
    {
      if id !in rows {
        return None;
      }
      match rows[id].status {
        case Queued =>
          CompleteJob(id, Cancelled);
          outcome := Some((true, rows[id]));
        case Running =>
          CompleteJob(id, Cancelled);
          outcome := Some((true, rows[id]));
        case Complete(_) =>
          outcome := Some((false, rows[id]));
      }
    }

    /** None stands for the rolled-back transaction. */
    method RetryJob(id: Uuid, original: Job, newId: Uuid) returns (retried: Option<Job>)
      requires id in rows && newId !in rows
      modifies this
      ensures retried.Some? <==> original.status.Complete? && original.status != Complete(Success)
      ensures rows == if Retryable(original) then Retry(old(rows), id, original, newId) else old(rows)
      ensures retried.Some? ==> newId in rows && rows[newId] == retried.value && Claimable(rows, newId)
      ensures retried.Some? ==> id in rows && rows[id].retriedJobId == Some(newId)
      ensures retried.Some? ==> retried.value.previousJobId == Some(id)
    {
      if original.status.Complete? && !original.status.completion.Success? {
        var job := Job(original.platform, Queued, None, original.cpus, original.memoryMb, None, Some(id));
        rows := rows[newId := job];
        rows := rows[id := rows[id].(retriedJobId := Some(newId))];
        retried := Some(job);
      } else {
        retried := None;
      }
    }
  }
}
