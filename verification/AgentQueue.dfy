/** The durable job and delegation queue of the adversary-simulation hand-off: addressable jobs
    that move QUEUED -> CLAIMED -> CLOSED, and delegations that name their producer job. */
module AgentQueue {
  import opened Wrappers
  import opened Digests
  import opened Trails

  datatype Role = LeadOrchestrator | ReconAgent

  datatype JobStatus = Queued | Claimed | Closed

  datatype QueueError =
    | DuplicateId
    | AddressInvalid
    | JobNotFound
    | RoutingMismatch
    | IllegalTransition
    | ProducerInvalid

  /** A job as submitted; its status on submission is always QUEUED. */
  datatype Job = Job(id: JobId, toAgent: Role, fromDelegation: string, producer: string)

  datatype JobRow = JobRow(job: Job, status: JobStatus)

  datatype Delegation = Delegation(id: string, producer: string)

  /** The three tables as a value. */
  datatype Tables = Tables(jobs: map<string, JobRow>, trail: seq<Move<JobStatus>>, delegations: map<string, Delegation>)

  const EmptyTables := Tables(map[], [], map[])

  // ------------------------------------------------------------------ addresses

  predicate IsHexId(prefix: string, s: string) {
    |s| == |prefix| + 16 && prefix <= s && forall i | |prefix| <= i < |s| :: IsHex(s[i])
  }

  type JobId = s: string | IsHexId("agjob-", s) witness "agjob-0000000000000000"

  function RoleName(r: Role): string {
    if r.LeadOrchestrator? then "LEAD_ORCHESTRATOR" else "RECON_AGENT"
  }

  const Scheme := "agentjob://"
  const DelegationScheme := "agentqueue://RECON_AGENT/"

  function JobAddress(r: Role, id: string): string {
    Scheme + RoleName(r) + "/" + id
  }

  function DelegationAddress(id: string): string {
    DelegationScheme + id
  }

  /** The part of `s` before its first '/', and the part after it, if there is one. */
  function Partition(s: string): Option<(string, string)> {
    if s == [] then None
    else if s[0] == '/' then Some(([], s[1..]))
    else match Partition(s[1..])
      case None => None
      case Some((head, rest)) => Some(([s[0]] + head, rest))
  }

  /** The part of `s` after its last '/', or all of it. */
  function LastSegment(s: string): string {
    if s == [] then []
    else if s[|s| - 1] == '/' then []
    else LastSegment(s[..|s| - 1]) + [s[|s| - 1]]
  }

  function ParseJobAddress(address: string): Option<(Role, string)> {
    if !(Scheme <= address) then None
    else match Partition(address[|Scheme|..])
      case None => None
      case Some((agent, id)) =>
        if id == [] then None
        else if agent == RoleName(LeadOrchestrator) then Some((LeadOrchestrator, id))
        else if agent == RoleName(ReconAgent) then Some((ReconAgent, id))
        else None
  }

  lemma {:induction false} PartitionAtFirstSlash(head: string, rest: string)
    requires '/' !in head
    ensures Partition(head + "/" + rest) == Some((head, rest))
  {
    var s := head + "/" + rest;
    if head == [] {
      assert s[0] == '/' && s[1..] == rest;
    } else {
      assert s[1..] == head[1..] + "/" + rest;
      PartitionAtFirstSlash(head[1..], rest);
      assert [s[0]] + head[1..] == head;
    }
  }

  lemma {:induction false} PartitionRejoins(s: string)
    ensures Partition(s).Some? ==> s == Partition(s).value.0 + "/" + Partition(s).value.1
  {
    if s != [] && s[0] != '/' {
      PartitionRejoins(s[1..]);
    }
  }

  lemma {:induction false} LastSegmentAfterSlash(prefix: string, id: string)
    requires '/' !in id
    ensures LastSegment(prefix + "/" + id) == id
  {
    var s := prefix + "/" + id;
    if id != [] {
      assert s[..|s| - 1] == prefix + "/" + id[..|id| - 1];
      assert s[|s| - 1] == id[|id| - 1] && id[|id| - 1] in id;
      LastSegmentAfterSlash(prefix, id[..|id| - 1]);
    }
  }

  /** Addresses and (role, id) pairs correspond one to one: parsing inverts formatting, and only
      a formatted address parses. */
  lemma AddressRoundTrip(r: Role, id: string, address: string)
    ensures id != [] ==> ParseJobAddress(JobAddress(r, id)) == Some((r, id))
    ensures ParseJobAddress(address) == Some((r, id)) ==> address == JobAddress(r, id)
  {
    var a := JobAddress(r, id);
    assert a[|Scheme|..] == RoleName(r) + "/" + id;
    PartitionAtFirstSlash(RoleName(r), id);
    if ParseJobAddress(address) == Some((r, id)) {
      PartitionRejoins(address[|Scheme|..]);
      assert address == Scheme + address[|Scheme|..];
    }
  }

  lemma JobIdsHaveNoSlash(id: JobId)
    ensures '/' !in id && id != []
  {
    assert "agjob-" == id[..6];
    forall i | 0 <= i < |id| ensures id[i] != '/' {
      assert i < 6 ==> id[i] == id[..6][i];
    }
  }

  lemma AddressOfJob(job: Job)
    ensures ParseJobAddress(JobAddress(job.toAgent, job.id)) == Some((job.toAgent, job.id))
    ensures LastSegment(JobAddress(job.toAgent, job.id)) == job.id
  {
    JobIdsHaveNoSlash(job.id);
    AddressRoundTrip(job.toAgent, job.id, []);
    LastSegmentAfterSlash(Scheme + RoleName(job.toAgent), job.id);
  }

  // ------------------------------------------------------------------ operations on the tables

  function Enqueue(t: Tables, job: Job): Result<Tables, QueueError> {
    if job.id in t.jobs then Err(DuplicateId)
    else Ok(t.(jobs := t.jobs[job.id := JobRow(job, Queued)],
               trail := t.trail + [Move(job.id, None, Queued)]))
  }

  function Resolve(t: Tables, address: string): Result<Option<Job>, QueueError> {
    match ParseJobAddress(address)
    case None => Err(AddressInvalid)
    case Some((agent, id)) =>
      if id !in t.jobs then Ok(None)
      else if t.jobs[id].job.toAgent != agent then Err(RoutingMismatch)
      else Ok(Some(t.jobs[id].job))
  }

  function ResolveDelegation(t: Tables, address: string): Result<Option<Delegation>, QueueError> {
    if !(DelegationScheme <= address) || address == DelegationScheme then Err(AddressInvalid)
    else
      var id := address[|DelegationScheme|..];
      Ok(if id in t.delegations then Some(t.delegations[id]) else None)
  }

  function Transition(t: Tables, address: string, expected: JobStatus, new_: JobStatus): Result<Tables, QueueError> {
    match ParseJobAddress(address)
    case None => Err(AddressInvalid)
    case Some((agent, id)) =>
      if id !in t.jobs then Err(JobNotFound)
      else if t.jobs[id].job.toAgent != agent then Err(RoutingMismatch)
      else if t.jobs[id].status != expected then Err(IllegalTransition)
      else Ok(t.(jobs := t.jobs[id := t.jobs[id].(status := new_)],
                 trail := t.trail + [Move(id, Some(expected), new_)]))
  }

  function PersistDelegation(t: Tables, d: Delegation): Result<Tables, QueueError> {
    if d.producer !in t.jobs || !t.jobs[d.producer].job.toAgent.LeadOrchestrator? then Err(ProducerInvalid)
    else if d.id in t.delegations then Err(DuplicateId)
    else Ok(t.(delegations := t.delegations[d.id := d]))
  }

  /** The delegation, its producer lead job and a recon job carrying both ids are all persisted. */
  predicate HandoffLinked(t: Tables, delegationId: string) {
    && delegationId in t.delegations
    && var d := t.delegations[delegationId];
    && d.producer in t.jobs
    && t.jobs[d.producer].job.toAgent.LeadOrchestrator?
    && exists id | id in t.jobs ::
         && t.jobs[id].job.fromDelegation == delegationId
         && t.jobs[id].job.producer == d.producer
         && t.jobs[id].job.toAgent.ReconAgent?
  }

  class TaskQueue {
    var jobs: map<string, JobRow>
    var trail: seq<Move<JobStatus>>
    var delegations: map<string, Delegation>

    constructor ()
      ensures View() == EmptyTables
    {
      jobs, trail, delegations := map[], [], map[];
    }

    function View(): Tables
      reads this
    {
      Tables(jobs, trail, delegations)
    }

    method EnqueueJob(job: Job) returns (r: Result<string, QueueError>)
      modifies this
      ensures match Enqueue(old(View()), job)
        case Ok(t) => r == Ok(JobAddress(job.toAgent, job.id)) && View() == t
        case Err(e) => r == Err(e) && View() == old(View())
    {
      if job.id in jobs {
        return Err(DuplicateId);
      }
      jobs := jobs[job.id := JobRow(job, Queued)];
      trail := trail + [Move(job.id, None, Queued)];
      return Ok(JobAddress(job.toAgent, job.id));
    }

    method ResolveJob(address: string) returns (r: Result<Option<Job>, QueueError>)
      ensures r == Resolve(View(), address)
    {
      match ParseJobAddress(address) {
        case None => return Err(AddressInvalid);
        case Some((agent, id)) =>
          if id !in jobs {
            return Ok(None);
          }
          if jobs[id].job.toAgent != agent {
            return Err(RoutingMismatch);
          }
          return Ok(Some(jobs[id].job));
      }
    }

    method ClaimJob(address: string) returns (r: Result<JobStatus, QueueError>)
      modifies this
      ensures Moved(Transition(old(View()), address, Queued, Claimed), old(View()), Claimed, r)
    {
      r := MoveJob(address, Queued, Claimed);
    }

    method CloseJob(address: string) returns (r: Result<JobStatus, QueueError>)
      modifies this
      ensures Moved(Transition(old(View()), address, Claimed, Closed), old(View()), Closed, r)
    {
      r := MoveJob(address, Claimed, Closed);
    }

    /** The outcome `r` and the current tables agree with the table operation's result. */
    ghost predicate Moved(outcome: Result<Tables, QueueError>, before: Tables, new_: JobStatus,
                          r: Result<JobStatus, QueueError>)
      reads this
    {
      match outcome
      case Ok(t) => r == Ok(new_) && View() == t
      case Err(e) => r == Err(e) && View() == before
    }

    method MoveJob(address: string, expected: JobStatus, new_: JobStatus) returns (r: Result<JobStatus, QueueError>)
      modifies this
      ensures Moved(Transition(old(View()), address, expected, new_), old(View()), new_, r)
    {
      match ParseJobAddress(address) {
        case None => return Err(AddressInvalid);
        case Some((agent, id)) =>
          if id !in jobs {
            return Err(JobNotFound);
          }
          var row := jobs[id];
          if row.job.toAgent != agent {
            return Err(RoutingMismatch);
          }
          if row.status != expected {
            return Err(IllegalTransition);
          }
          jobs := jobs[id := row.(status := new_)];
          trail := trail + [Move(id, Some(expected), new_)];
          return Ok(new_);
      }
    }

    method Persist(d: Delegation) returns (r: Result<(), QueueError>)
      modifies this`delegations
      ensures match PersistDelegation(old(View()), d)
        case Ok(t) => r == Ok(()) && View() == t
        case Err(e) => r == Err(e) && View() == old(View())
    {
      if d.producer !in jobs || !jobs[d.producer].job.toAgent.LeadOrchestrator? {
        return Err(ProducerInvalid);
      }
      if d.id in delegations {
        return Err(DuplicateId);
      }
      delegations := delegations[d.id := d];
      return Ok(());
    }
  }

  // ------------------------------------------------------------------ what the drivers do with a job

  /** How a driver records a job it has taken: address, claimed status, whether the address
      resolves, and whether the job was closed. */
  datatype JobNote = JobNote(address: string, claimedStatus: JobStatus, resolved: bool, closed: bool)

  function Note(job: Job, closed: bool): JobNote {
    JobNote(JobAddress(job.toAgent, job.id), Claimed, true, closed)
  }

  predicate JobNoteGood(note: JobNote, role: Role) {
    && Scheme + RoleName(role) + "/" <= note.address
    && note.claimedStatus.Claimed?
    && note.resolved
  }

  /** The two kinds of job address, which no address is both of. */
  lemma JobPrefixes(address: string)
    ensures Scheme + RoleName(LeadOrchestrator) + "/" == "agentjob://LEAD_ORCHESTRATOR/"
    ensures Scheme + RoleName(ReconAgent) + "/" == "agentjob://RECON_AGENT/"
    ensures !("agentjob://LEAD_ORCHESTRATOR/" <= address && "agentjob://RECON_AGENT/" <= address)
  {
    if "agentjob://LEAD_ORCHESTRATOR/" <= address {
      assert address[11] == "agentjob://LEAD_ORCHESTRATOR/"[11] == 'L';
    }
    if "agentjob://RECON_AGENT/" <= address {
      assert address[11] == "agentjob://RECON_AGENT/"[11] == 'R';
    }
  }

  lemma NotesAreGood(job: Job, closed: bool)
    ensures JobNoteGood(Note(job, closed), job.toAgent)
  {
    var prefix := Scheme + RoleName(job.toAgent) + "/";
    assert JobAddress(job.toAgent, job.id) == prefix + job.id;
    assert prefix <= prefix + job.id;
  }

  /** The tables after a job was enqueued and claimed. */
  function Taken(t: Tables, job: Job): Tables {
    t.(jobs := t.jobs[job.id := JobRow(job, Claimed)],
       trail := t.trail + [Move(job.id, None, Queued)] + [Move(job.id, Some(Queued), Claimed)])
  }

  /** The tables after a claimed job was closed. */
  function Finished(t: Tables, job: Job): Tables {
    t.(jobs := t.jobs[job.id := JobRow(job, Closed)], trail := t.trail + [Move(job.id, Some(Claimed), Closed)])
  }

  lemma TakenIsEnqueueAndClaim(t: Tables, job: Job)
    requires job.id !in t.jobs
    ensures Enqueue(t, job).Ok?
    ensures Transition(Enqueue(t, job).value, JobAddress(job.toAgent, job.id), Queued, Claimed) == Ok(Taken(t, job))
  {
    AddressOfJob(job);
    var t1 := Enqueue(t, job).value;
    assert t1.jobs[job.id := JobRow(job, Claimed)] == t.jobs[job.id := JobRow(job, Claimed)];
  }

  lemma TakenResolves(t: Tables, job: Job)
    ensures Resolve(Taken(t, job), JobAddress(job.toAgent, job.id)) == Ok(Some(job))
  {
    AddressOfJob(job);
  }

  /** Enqueue a job, claim it by its address and note whether the address resolves. */
  method TakeJob(queue: TaskQueue, job: Job) returns (note: Option<JobNote>)
    modifies queue
    ensures if job.id in old(queue.View()).jobs then note == None
            else note == Some(Note(job, false)) && queue.View() == Taken(old(queue.View()), job)
  {
    ghost var t := queue.View();
    var address := queue.EnqueueJob(job);
    if address.Err? {
      return None;
    }
    TakenIsEnqueueAndClaim(t, job);
    var claimed := queue.ClaimJob(address.value);
    TakenResolves(t, job);
    var resolved := queue.ResolveJob(address.value);
    return Some(JobNote(address.value, claimed.value, resolved.Ok? && resolved.value.Some?, false));
  }

  /** Close a job by its address. */
  method FinishJob(queue: TaskQueue, job: Job)
    requires job.id in queue.View().jobs && queue.View().jobs[job.id] == JobRow(job, Claimed)
    modifies queue
    ensures queue.View() == Finished(old(queue.View()), job)
  {
    AddressOfJob(job);
    var _ := queue.CloseJob(JobAddress(job.toAgent, job.id));
  }

  // ------------------------------------------------------------------ what every operation keeps

  function Lifecycle(s: JobStatus): seq<JobStatus> {
    match s
    case Queued => [Queued]
    case Claimed => [Queued, Claimed]
    case Closed => [Queued, Claimed, Closed]
  }

  /** The trail of every job is the one lifecycle that leads to its status; nothing else has a
      trail; rows are filed under their own id; every delegation has its lead producer. */
  ghost predicate Consistent(t: Tables) {
    && (forall id | id in t.jobs :: t.jobs[id].job.id == id && StatesOf(t.trail, id) == Lifecycle(t.jobs[id].status))
    && (forall m | m in t.trail :: m.id in t.jobs)
    && (forall d | d in t.delegations ::
          && t.delegations[d].id == d
          && t.delegations[d].producer in t.jobs
          && t.jobs[t.delegations[d].producer].job.toAgent.LeadOrchestrator?)
  }

  lemma EnqueueKeepsConsistent(t: Tables, job: Job)
    requires Consistent(t)
    ensures Enqueue(t, job).Ok? ==> Consistent(Enqueue(t, job).value)
  {
    if Enqueue(t, job).Ok? {
      var m := Move(job.id, None, Queued);
      forall id | id in t.jobs || id == job.id
        ensures StatesOf(t.trail + [m], id) == Lifecycle(Enqueue(t, job).value.jobs[id].status)
      {
        StatesAfter(t.trail, m, id);
        if id == job.id {
          NoMovesNoStates(t.trail, id);
        }
      }
    }
  }

  /** What a successful transition is: one row of a known job changes its status, and is logged. */
  lemma TransitionDetails(t: Tables, address: string, expected: JobStatus, new_: JobStatus)
    requires Consistent(t) && Transition(t, address, expected, new_).Ok?
    ensures ParseJobAddress(address).Some?
    ensures var id := ParseJobAddress(address).value.1;
      && id in t.jobs && t.jobs[id].status == expected
      && Transition(t, address, expected, new_).value
         == t.(jobs := t.jobs[id := t.jobs[id].(status := new_)], trail := t.trail + [Move(id, Some(expected), new_)])
  {
  }

  /** Such a change keeps the tables consistent if the lifecycle has that step. */
  lemma OneMoveKeepsConsistent(t: Tables, id: string, new_: JobStatus)
    requires Consistent(t) && id in t.jobs
    requires Lifecycle(t.jobs[id].status) + [new_] == Lifecycle(new_)
    ensures Consistent(t.(jobs := t.jobs[id := t.jobs[id].(status := new_)],
                          trail := t.trail + [Move(id, Some(t.jobs[id].status), new_)]))
  {
    var m := Move(id, Some(t.jobs[id].status), new_);
    forall other | other in t.jobs
      ensures StatesOf(t.trail + [m], other) == StatesOf(t.trail, other) + (if other == id then [new_] else [])
    {
      StatesAfter(t.trail, m, other);
    }
  }

  /** Only the two moves the queue exposes keep the lifecycle: claiming and closing. */
  lemma MoveKeepsConsistent(t: Tables, address: string, expected: JobStatus, new_: JobStatus)
    requires Consistent(t)
    requires (expected == Queued && new_ == Claimed) || (expected == Claimed && new_ == Closed)
    ensures Transition(t, address, expected, new_).Ok? ==> Consistent(Transition(t, address, expected, new_).value)
  {
    if Transition(t, address, expected, new_).Ok? {
      TransitionDetails(t, address, expected, new_);
      OneMoveKeepsConsistent(t, ParseJobAddress(address).value.1, new_);
    }
  }

  lemma PersistKeepsConsistent(t: Tables, d: Delegation)
    requires Consistent(t)
    ensures PersistDelegation(t, d).Ok? ==> Consistent(PersistDelegation(t, d).value)
  {
  }

  lemma TakenKeepsConsistent(t: Tables, job: Job)
    requires Consistent(t) && job.id !in t.jobs
    ensures Consistent(Taken(t, job))
  {
    TakenIsEnqueueAndClaim(t, job);
    EnqueueKeepsConsistent(t, job);
    MoveKeepsConsistent(Enqueue(t, job).value, JobAddress(job.toAgent, job.id), Queued, Claimed);
  }

  lemma FinishedKeepsConsistent(t: Tables, job: Job)
    requires Consistent(t) && job.id in t.jobs && t.jobs[job.id] == JobRow(job, Claimed)
    ensures Consistent(Finished(t, job))
  {
    AddressOfJob(job);
    MoveKeepsConsistent(t, JobAddress(job.toAgent, job.id), Claimed, Closed);
  }

  /** A requested queue operation. */
  datatype Op = OpEnqueue(job: Job) | OpClaim(address: string) | OpClose(address: string) | OpPersist(d: Delegation)

  function Apply(t: Tables, op: Op): Tables {
    var r := match op
      case OpEnqueue(job) => Enqueue(t, job)
      case OpClaim(a) => Transition(t, a, Queued, Claimed)
      case OpClose(a) => Transition(t, a, Claimed, Closed)
      case OpPersist(d) => PersistDelegation(t, d);
    if r.Ok? then r.value else t
  }

  function ApplyAll(t: Tables, ops: seq<Op>): Tables {
    if ops == [] then t else Apply(ApplyAll(t, ops[..|ops| - 1]), ops[|ops| - 1])
  }

  /** Whatever operations are requested, in whatever order and with whatever addresses, every job's
      trail is a prefix of QUEUED, CLAIMED, CLOSED that ends in its status. */
  lemma {:induction false} LifecycleOverEveryRun(ops: seq<Op>)
    ensures Consistent(ApplyAll(EmptyTables, ops))
  {
    if ops != [] {
      LifecycleOverEveryRun(ops[..|ops| - 1]);
      var t := ApplyAll(EmptyTables, ops[..|ops| - 1]);
      match ops[|ops| - 1] {
        case OpEnqueue(job) => EnqueueKeepsConsistent(t, job);
        case OpClaim(a) => MoveKeepsConsistent(t, a, Queued, Claimed);
        case OpClose(a) => MoveKeepsConsistent(t, a, Claimed, Closed);
        case OpPersist(d) => PersistKeepsConsistent(t, d);
      }
    }
  }
}
