/** The runner's record of its jobs and the status events it emits. */
module JobManager {
  import opened Protocol

  datatype JobStatusEvent = JobStatusEvent(jobId: Uuid, status: JobStatus)

  /** `log` holds every event ever put on the status channel, oldest first. */
  datatype Manager = Manager(jobs: map<Uuid, JobStatus>, log: seq<JobStatusEvent>)

  const EMPTY := Manager(map[], [])

  /** Inserts without looking: an existing entry is overwritten. */
  function Register(m: Manager, id: Uuid): Manager {
    Manager(m.jobs[id := Queued], m.log + [JobStatusEvent(id, Queued)])
  }

  predicate Allowed(from: JobStatus, to: JobStatus) {
    || (from.Queued? && to.Running?)
    || (from.Queued? && to == Complete(Cancelled))
    || (from.Running? && to.Complete?)
  }

  /** Unknown ids are an error; repeated and disallowed transitions are silently dropped. */
  function Update(m: Manager, id: Uuid, status: JobStatus): Manager {
    if id in m.jobs && Allowed(m.jobs[id], status)
    then Manager(m.jobs[id := status], m.log + [JobStatusEvent(id, status)])
    else m
  }

  /** Exactly these requests leave the job with the requested status; a job that is asked for what it has keeps it. */
  lemma UpdateTakesEffectIff(m: Manager, id: Uuid, status: JobStatus)
    requires id in m.jobs
    ensures Update(m, id, status).jobs[id] == status <==>
              || m.jobs[id] == status
              || (m.jobs[id] == Queued && (status == Running || status == Complete(Cancelled)))
              || (m.jobs[id] == Running && status.Complete?)
    ensures Update(m, id, status).jobs[id] != status ==> Update(m, id, status) == m
    ensures forall other | other in m.jobs && other != id ::
              other in Update(m, id, status).jobs && Update(m, id, status).jobs[other] == m.jobs[other]
  {
  }

  predicate Terminal(e: JobStatusEvent, id: Uuid) {
    e.jobId == id && e.status.Complete?
  }

  function ActiveIds(jobs: map<Uuid, JobStatus>): set<Uuid> {
    set id | id in jobs && !jobs[id].Complete?
  }

  // ---------- What the event log says ----------

  /** The statuses reported for one job, oldest first. */
  ghost function History(log: seq<JobStatusEvent>, id: Uuid): seq<JobStatus> {
    if log == [] then []
    else
      var e := log[|log| - 1];
      var before := History(log[..|log| - 1], id);
      if e.jobId == id then before + [e.status] else before
  }

  /** Replays the log. */
  ghost function Fold(log: seq<JobStatusEvent>): map<Uuid, JobStatus> {
    if log == [] then map[]
    else
      var e := log[|log| - 1];
      Fold(log[..|log| - 1])[e.jobId := e.status]
  }

  /** A prefix of Queued, Running, Complete(c), or of Queued, Complete(Cancelled). */
  ghost predicate Legal(h: seq<JobStatus>) {
    || h == []
    || h == [Queued]
    || h == [Queued, Running]
    || h == [Queued, Complete(Cancelled)]
    || (|h| == 3 && h[0] == Queued && h[1] == Running && h[2].Complete?)
  }

  /** The map agrees with the log: the last event of a job is its status. */
  ghost predicate Consistent(m: Manager, id: Uuid) {
    var h := History(m.log, id);
    if id in m.jobs then h != [] && h[|h| - 1] == m.jobs[id] else h == []
  }

  /** What holds of managers whose ids were registered at most once. */
  ghost predicate Inv(m: Manager) {
    forall id :: Consistent(m, id) && Legal(History(m.log, id))
  }

  lemma HistoryAppend(log: seq<JobStatusEvent>, e: JobStatusEvent, id: Uuid)
    ensures History(log + [e], id) == if e.jobId == id then History(log, id) + [e.status] else History(log, id)
  {
    assert (log + [e])[..|log|] == log;
  }

  lemma RegisterStep(m: Manager, id: Uuid, other: Uuid)
    requires Consistent(m, other)
    ensures Consistent(Register(m, id), other)
    ensures History(Register(m, id).log, other)
         == if id == other then History(m.log, other) + [Queued] else History(m.log, other)
  {
    HistoryAppend(m.log, JobStatusEvent(id, Queued), other);
  }

  lemma UpdateStep(m: Manager, id: Uuid, status: JobStatus, other: Uuid)
    requires Consistent(m, other)
    ensures Consistent(Update(m, id, status), other)
    ensures Legal(History(m.log, other)) ==> Legal(History(Update(m, id, status).log, other))
  {
    HistoryAppend(m.log, JobStatusEvent(id, status), other);
  }

  lemma RegisterKeepsInv(m: Manager, id: Uuid)
    requires Inv(m) && id !in m.jobs
    ensures Inv(Register(m, id))
  {
    forall other ensures Consistent(Register(m, id), other) && Legal(History(Register(m, id).log, other)) {
      RegisterStep(m, id, other);
    }
  }

  lemma UpdateKeepsInv(m: Manager, id: Uuid, status: JobStatus)
    requires Inv(m)
    ensures Inv(Update(m, id, status))
  {
    forall other ensures Consistent(Update(m, id, status), other) && Legal(History(Update(m, id, status).log, other)) {
      UpdateStep(m, id, status, other);
    }
  }

  lemma {:induction false} HistoryPrefix(log: seq<JobStatusEvent>, i: nat, id: Uuid)
    requires i <= |log|
    ensures History(log[..i], id) <= History(log, id)
    decreases |log|
  {
    if i < |log| {
      var front := log[..|log| - 1];
      assert front[..i] == log[..i];
      HistoryPrefix(front, i, id);
    } else {
      assert log[..i] == log;
    }
  }

  /** The event at position i is recorded at its place in the job's history. */
  lemma EventPosition(log: seq<JobStatusEvent>, i: nat, id: Uuid)
    requires i < |log| && log[i].jobId == id
    ensures |History(log[..i], id)| < |History(log, id)|
    ensures History(log, id)[|History(log[..i], id)|] == log[i].status
  {
    assert log[..i + 1] == log[..i] + [log[i]];
    HistoryAppend(log[..i], log[i], id);
    HistoryPrefix(log, i + 1, id);
  }

  /** A job has at most one terminal event, and its status is terminal once it has one. */
  lemma TerminalOnce(m: Manager, i: nat, j: nat, id: Uuid)
    requires Inv(m)
    requires i < |m.log| && Terminal(m.log[i], id)
    requires j < |m.log| && Terminal(m.log[j], id)
    ensures i == j
    ensures id in m.jobs && m.jobs[id] == m.log[i].status
  {
    assert Consistent(m, id) && Legal(History(m.log, id));
    EventPosition(m.log, i, id);
    EventPosition(m.log, j, id);
    if i != j {
      var a, b := if i < j then i else j, if i < j then j else i;
      assert m.log[..b][..a] == m.log[..a];
      EventPosition(m.log[..b], a, id);
    }
  }

  // ---------- Whole runs ----------

  datatype Op = RegisterOp(id: Uuid) | UpdateOp(id: Uuid, status: JobStatus)

  ghost function Run(ops: seq<Op>): Manager {
    if ops == [] then EMPTY
    else
      var m := Run(ops[..|ops| - 1]);
      match ops[|ops| - 1]
      case RegisterOp(id) => Register(m, id)
      case UpdateOp(id, status) => Update(m, id, status)
  }

  ghost function Registrations(ops: seq<Op>, id: Uuid): nat {
    if ops == [] then 0
    else Registrations(ops[..|ops| - 1], id) + if ops[|ops| - 1] == RegisterOp(id) then 1 else 0
  }

  ghost function CountQueued(h: seq<JobStatus>): nat {
    if h == [] then 0 else CountQueued(h[..|h| - 1]) + if h[|h| - 1].Queued? then 1 else 0
  }

  lemma CountQueuedAppend(h: seq<JobStatus>, s: JobStatus)
    ensures CountQueued(h + [s]) == CountQueued(h) + if s.Queued? then 1 else 0
  {
    assert (h + [s])[..|h|] == h;
  }

  lemma LegalStartsQueued(h: seq<JobStatus>)
    requires Legal(h)
    ensures CountQueued(h) == if h == [] then 0 else 1
  {
    if |h| == 3 {
      assert h[..2] == [Queued, Running] && h[..2][..1] == [Queued];
    }
  }

  /** No update reports Queued. */
  lemma UpdateHistory(m: Manager, i: Uuid, status: JobStatus, id: Uuid)
    ensures CountQueued(History(Update(m, i, status).log, id)) == CountQueued(History(m.log, id))
  {
    HistoryAppend(m.log, JobStatusEvent(i, status), id);
    CountQueuedAppend(History(m.log, id), status);
  }

  lemma {:induction false} RunFacts(ops: seq<Op>, id: Uuid)
    ensures Consistent(Run(ops), id)
    ensures CountQueued(History(Run(ops).log, id)) == Registrations(ops, id)
    ensures Registrations(ops, id) <= 1 ==> Legal(History(Run(ops).log, id))
  {
    if ops == [] {
    } else {
      var front, op := ops[..|ops| - 1], ops[|ops| - 1];
      RunFacts(front, id);
      var m := Run(front);
      match op
      case RegisterOp(i) =>
        RegisterStep(m, i, id);
        CountQueuedAppend(History(m.log, id), Queued);
        if i == id && Registrations(ops, id) <= 1 {
          LegalStartsQueued(History(m.log, id));
        }
      case UpdateOp(i, status) =>
        UpdateStep(m, i, status, id);
        UpdateHistory(m, i, status, id);
    }
  }

  /** A job's events follow the protocol exactly when the job was registered at most once. */
  lemma HistoryLegalIffRegisteredOnce(ops: seq<Op>, id: Uuid)
    ensures Legal(History(Run(ops).log, id)) <==> Registrations(ops, id) <= 1
  {
    RunFacts(ops, id);
    if Legal(History(Run(ops).log, id)) {
      LegalStartsQueued(History(Run(ops).log, id));
    }
  }

  lemma {:induction false} FoldIsLast(log: seq<JobStatusEvent>, id: Uuid)
    ensures var h := History(log, id);
            if id in Fold(log) then h != [] && Fold(log)[id] == h[|h| - 1] else h == []
  {
    if log == [] {
    } else {
      FoldIsLast(log[..|log| - 1], id);
    }
  }

  /** The job map is the replay of the emitted log, whatever was registered how often. */
  lemma {:induction false} JobsAreFoldOfLog(ops: seq<Op>)
    ensures Run(ops).jobs == Fold(Run(ops).log)
  {
    var m := Run(ops);
    forall id ensures id in m.jobs <==> id in Fold(m.log)
              ensures id in m.jobs ==> m.jobs[id] == Fold(m.log)[id] {
      RunFacts(ops, id);
      FoldIsLast(m.log, id);
    }
  }

  /** Those of the given jobs that have exactly this status. */
  ghost function With(jobs: map<Uuid, JobStatus>, ids: set<Uuid>, status: JobStatus): set<Uuid> {
    set id | id in ids && id in jobs && jobs[id] == status
  }

  lemma WithOneMore(jobs: map<Uuid, JobStatus>, ids: set<Uuid>, id: Uuid, status: JobStatus)
    requires id in jobs && id !in ids
    ensures |With(jobs, ids + {id}, status)| == |With(jobs, ids, status)| + if jobs[id] == status then 1 else 0
  {
    if jobs[id] == status {
      assert With(jobs, ids + {id}, status) == With(jobs, ids, status) + {id};
    } else {
      assert With(jobs, ids + {id}, status) == With(jobs, ids, status);
    }
  }

  lemma ActiveIsQueuedOrRunning(jobs: map<Uuid, JobStatus>)
    ensures |ActiveIds(jobs)| == |With(jobs, jobs.Keys, Queued)| + |With(jobs, jobs.Keys, Running)|
  {
    assert ActiveIds(jobs) == With(jobs, jobs.Keys, Queued) + With(jobs, jobs.Keys, Running);
  }

  // ---------- The manager as the runner uses it ----------

  class JobManager {
    var jobs: map<Uuid, JobStatus>
    var log: seq<JobStatusEvent>

    function View(): Manager
      reads this
    {
      Manager(jobs, log)
    }

    constructor ()
      ensures View() == EMPTY
    {
      jobs, log := map[], [];
    }

    method RegisterJob(id: Uuid)
      modifies this
      ensures View() == Register(old(View()), id)
    {
      jobs := jobs[id := Queued];
      log := log + [JobStatusEvent(id, Queued)];
    }

    /** False stands for the "Job not found" error; a rejected transition is not an error. */
    method UpdateJobStatus(id: Uuid, status: JobStatus) returns (found: bool)
      modifies this
      ensures found <==> id in old(jobs)
      ensures View() == Update(old(View()), id, status)
    {
      if id !in jobs {
        return false;
      }
      found := true;
      if jobs[id] == status {
        return;
      }
      var allowed := false;
      match jobs[id] {
        case Queued =>
          if status == Running || status == Complete(Cancelled) { allowed := true; }
        case Running =>
          if status.Complete? { allowed := true; }
        case Complete(_) =>
      }
      if !allowed {
        return;
      }
      jobs := jobs[id := status];
      log := log + [JobStatusEvent(id, status)];
    }

    method ActiveJobCount() returns (active: nat)
      ensures active == |ActiveIds(jobs)|
    {
      var a, _, _ := GetJobCounts();
      active := a;
    }

    /** One pass over the entries, in any order. */
    method GetJobCounts() returns (active: nat, queued: nat, running: nat)
      ensures active == |ActiveIds(jobs)| && active == queued + running
      ensures queued == |With(jobs, jobs.Keys, Queued)| && running == |With(jobs, jobs.Keys, Running)|
    {
      active, queued, running := 0, 0, 0;
      var rest := jobs.Keys;
      while rest != {}
        invariant rest <= jobs.Keys
        invariant queued == |With(jobs, jobs.Keys - rest, Queued)|
        invariant running == |With(jobs, jobs.Keys - rest, Running)|
        invariant active == queued + running
        decreases rest
      {
        var id :| id in rest;
        WithOneMore(jobs, jobs.Keys - rest, id, Queued);
        WithOneMore(jobs, jobs.Keys - rest, id, Running);
        match jobs[id] {
          case Queued =>
            queued, active := queued + 1, active + 1;
          case Running =>
            running, active := running + 1, active + 1;
          case Complete(_) =>
        }
        assert jobs.Keys - (rest - {id}) == jobs.Keys - rest + {id};
        rest := rest - {id};
      }
      assert jobs.Keys - {} == jobs.Keys;
      ActiveIsQueuedOrRunning(jobs);
    }
  }
}
