/** What the queue's operations write and answer, in literal addresses: for every operation the whole
    tables it leaves, succeeding or failing, and its error. */
module QueueEffects {
  import opened Wrappers
  import opened Trails
  import opened AgentQueue

  function Prefix(role: Role): string {
    match role
    case LeadOrchestrator => "agentjob://LEAD_ORCHESTRATOR/"
    case ReconAgent => "agentjob://RECON_AGENT/"
  }

  lemma AddressIs(role: Role, id: string)
    ensures JobAddress(role, id) == Prefix(role) + id
  {
    JobPrefixes("");
    assert Scheme + RoleName(role) + "/" == Prefix(role);
  }

  /** An address names a job exactly if it is a role's prefix followed by an id that is not empty. */
  lemma AddressNames(address: string, role: Role, id: string)
    ensures ParseJobAddress(address) == Some((role, id)) <==> address == Prefix(role) + id && id != ""
  {
    AddressIs(role, id);
    AddressRoundTrip(role, id, address);
    NamedIdsAreNotEmpty(address);
  }

  lemma NamedIdsAreNotEmpty(address: string)
    ensures ParseJobAddress(address).Some? ==> ParseJobAddress(address).value.1 != ""
  {
  }

  ghost predicate NamesNothing(address: string) {
    forall role: Role, id: string | id != "" :: address != Prefix(role) + id
  }

  lemma NamesNothingIff(address: string)
    ensures NamesNothing(address) <==> ParseJobAddress(address).None?
  {
    forall role: Role, id: string | id != ""
      ensures ParseJobAddress(address) == Some((role, id)) <==> address == Prefix(role) + id
    {
      AddressNames(address, role, id);
    }
    if ParseJobAddress(address).Some? {
      AddressNames(address, ParseJobAddress(address).value.0, ParseJobAddress(address).value.1);
    }
  }

  lemma EnqueueDoes(t: Tables, job: Job)
    ensures Enqueue(t, job)
         == if job.id in t.jobs then Err(DuplicateId)
            else Ok(Tables(jobs := t.jobs[job.id := JobRow(job, Queued)],
                           trail := t.trail + [Move(job.id, None, Queued)], delegations := t.delegations))
  {
  }

  /** A job is found by its own address, and under no other role's. */
  lemma ResolveDoes(t: Tables, role: Role, id: string)
    requires id != ""
    ensures Resolve(t, Prefix(role) + id)
         == if id !in t.jobs then Ok(None)
            else if t.jobs[id].job.toAgent == role then Ok(Some(t.jobs[id].job)) else Err(RoutingMismatch)
  {
    AddressNames(Prefix(role) + id, role, id);
  }

  /** A job is moved by its own address from the expected state, and logged; nothing else is touched. */
  lemma MoveDoes(t: Tables, role: Role, id: string, expected: JobStatus, next: JobStatus)
    requires id != ""
    ensures Transition(t, Prefix(role) + id, expected, next)
         == if id !in t.jobs then Err(JobNotFound)
            else if t.jobs[id].job.toAgent != role then Err(RoutingMismatch)
            else if t.jobs[id].status != expected then Err(IllegalTransition)
            else Ok(Tables(jobs := t.jobs[id := JobRow(t.jobs[id].job, next)],
                           trail := t.trail + [Move(id, Some(expected), next)], delegations := t.delegations))
  {
    AddressNames(Prefix(role) + id, role, id);
  }

  lemma MalformedAddress(t: Tables, address: string, expected: JobStatus, next: JobStatus)
    requires NamesNothing(address)
    ensures Resolve(t, address) == Err(AddressInvalid) && Transition(t, address, expected, next) == Err(AddressInvalid)
  {
    NamesNothingIff(address);
  }

  /** A delegation is stored once, for a lead job that exists. */
  lemma PersistDoes(t: Tables, d: Delegation)
    ensures PersistDelegation(t, d)
         == if !(d.producer in t.jobs && t.jobs[d.producer].job.toAgent.LeadOrchestrator?) then Err(ProducerInvalid)
            else if d.id in t.delegations then Err(DuplicateId)
            else Ok(Tables(jobs := t.jobs, trail := t.trail, delegations := t.delegations[d.id := d]))
  {
  }

  /** A delegation is found by its address, which is not empty after its scheme. */
  lemma ResolveDelegationDoes(t: Tables, id: string)
    ensures ResolveDelegation(t, "agentqueue://RECON_AGENT/" + id)
         == if id == "" then Err(AddressInvalid) else Ok(if id in t.delegations then Some(t.delegations[id]) else None)
  {
    assert ("agentqueue://RECON_AGENT/" + id)[|"agentqueue://RECON_AGENT/"|..] == id;
  }

  lemma ForeignDelegationAddress(t: Tables, address: string)
    requires !("agentqueue://RECON_AGENT/" <= address)
    ensures ResolveDelegation(t, address) == Err(AddressInvalid)
  {
  }

  /** The hand-off is linked exactly if the delegation, the lead job it names and a recon job that names
      both are all there. */
  lemma LinkedIff(t: Tables, id: string)
    ensures HandoffLinked(t, id) <==>
      exists lead, recon | lead in t.jobs && recon in t.jobs ::
        && id in t.delegations && t.delegations[id].producer == lead && t.jobs[lead].job.toAgent.LeadOrchestrator?
        && t.jobs[recon].job.toAgent.ReconAgent? && t.jobs[recon].job.fromDelegation == id
        && t.jobs[recon].job.producer == lead
  {
  }
}
