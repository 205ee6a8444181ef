/** Durable persistence of an attack-chain run: the inbound job, the chain state with every state
    change, and the ordered links. */
module ChainLedger {
  import opened Wrappers
  import opened Trails

  datatype JobStatus = Queued | Claimed | Closed

  datatype ChainState = Running | LinkConfirmed | BlockedByPatch | ChainConfirmed | Failed

  datatype LinkState = Confirmed | Passed | Incomplete

  datatype Link = Link(
    id: string, stageIndex: nat, producer: string, consumer: string,
    inputRefs: seq<string>, outputRefs: seq<string>, sourceSha: string,
    dependsOn: Option<string>, consumesPriorReference: bool, verification: LinkState)

  /** A link row keeps the job and stage it was first inserted with; a later upsert under the same
      id replaces only the payload. */
  datatype LinkRow = LinkRow(jobId: string, stageIndex: nat, link: Link)

  datatype Tables = Tables(
    jobs: map<string, JobStatus>, jobTrail: seq<Move<JobStatus>>,
    chains: map<string, ChainState>, trace: seq<Move<ChainState>>,
    links: seq<LinkRow>)

  const EmptyTables := Tables(map[], [], map[], [], [])

  /** A job is enqueued under a fresh id and claimed. */
  function Taken(t: Tables, id: string): Tables {
    t.(jobs := t.jobs[id := Claimed], jobTrail := t.jobTrail + [Move(id, None, Queued)]
       + [Move(id, Some(Queued), Claimed)])
  }

  function Closing(t: Tables, id: string): Tables {
    t.(jobs := t.jobs[id := Closed], jobTrail := t.jobTrail + [Move(id, Some(Claimed), Closed)])
  }

  /** The chain's state is replaced; a change of state is traced. */
  function Upserted(t: Tables, id: string, s: ChainState): Tables {
    var from := if id in t.chains then Some(t.chains[id]) else None;
    t.(chains := t.chains[id := s],
       trace := if from == Some(s) then t.trace else t.trace + [Move(id, from, s)])
  }

  function UpsertRow(rows: seq<LinkRow>, jobId: string, link: Link): seq<LinkRow> {
    if rows == [] then [LinkRow(jobId, link.stageIndex, link)]
    else if rows[0].link.id == link.id then [rows[0].(link := link)] + rows[1..]
    else [rows[0]] + UpsertRow(rows[1..], jobId, link)
  }

  function Linked(t: Tables, jobId: string, link: Link): Tables {
    t.(links := UpsertRow(t.links, jobId, link))
  }

  /** The links of a job in one stage, in insertion order. */
  function LinksInStage(rows: seq<LinkRow>, jobId: string, stage: nat): seq<Link> {
    if rows == [] then []
    else (if rows[0].jobId == jobId && rows[0].stageIndex == stage then [rows[0].link] else [])
         + LinksInStage(rows[1..], jobId, stage)
  }

  /** The links of a job ordered by stage; stage indices run from 0 to 8. */
  function LinksUpTo(rows: seq<LinkRow>, jobId: string, stages: nat): seq<Link> {
    if stages == 0 then [] else LinksUpTo(rows, jobId, stages - 1) + LinksInStage(rows, jobId, stages - 1)
  }

  const StageCount: nat := 9

  function LinksOf(t: Tables, jobId: string): seq<Link> {
    LinksUpTo(t.links, jobId, StageCount)
  }

  class Ledger {
    var jobs: map<string, JobStatus>
    var jobTrail: seq<Move<JobStatus>>
    var chains: map<string, ChainState>
    var trace: seq<Move<ChainState>>
    var links: seq<LinkRow>

    constructor ()
      ensures View() == EmptyTables
    {
      jobs, jobTrail, chains, trace, links := map[], [], map[], [], [];
    }

    function View(): Tables
      reads this
    {
      Tables(jobs, jobTrail, chains, trace, links)
    }

    /** Enqueue and claim a job; false if its id is taken. */
    method TakeJob(id: string) returns (ok: bool)
      modifies this`jobs, this`jobTrail
      ensures ok == (id !in old(jobs))
      ensures View() == if ok then Taken(old(View()), id) else old(View())
    {
      if id in jobs {
        return false;
      }
      jobs := jobs[id := Queued];
      jobTrail := jobTrail + [Move(id, None, Queued)];
      jobs := jobs[id := Claimed];
      jobTrail := jobTrail + [Move(id, Some(Queued), Claimed)];
      return true;
    }

    /** Close a claimed job; false if it is not claimed. */
    method CloseJob(id: string) returns (ok: bool)
      modifies this`jobs, this`jobTrail
      ensures ok == (id in old(jobs) && old(jobs)[id].Claimed?)
      ensures View() == if ok then Closing(old(View()), id) else old(View())
    {
      if id !in jobs || !jobs[id].Claimed? {
        return false;
      }
      jobs := jobs[id := Closed];
      jobTrail := jobTrail + [Move(id, Some(Claimed), Closed)];
      return true;
    }

    method UpsertChain(id: string, s: ChainState)
      modifies this`chains, this`trace
      ensures View() == Upserted(old(View()), id, s)
    {
      var from := if id in chains then Some(chains[id]) else None;
      chains := chains[id := s];
      if from != Some(s) {
        trace := trace + [Move(id, from, s)];
      }
    }

    method UpsertLink(jobId: string, link: Link)
      modifies this`links
      ensures View() == Linked(old(View()), jobId, link)
    {
      links := UpsertRow(links, jobId, link);
    }
  }

  // ------------------------------------------------------------------ facts about the tables

  /** Trails, traces and link rows belong to known jobs only. */
  ghost predicate Consistent(t: Tables) {
    && (forall m | m in t.jobTrail :: m.id in t.jobs)
    && (forall c | c in t.trace :: c.id in t.chains)
    && (forall id | id in t.chains :: id in t.jobs)
    && (forall r | r in t.links :: r.jobId in t.jobs)
  }

  lemma UnknownJobHasNothing(t: Tables, id: string)
    requires Consistent(t) && id !in t.jobs
    ensures StatesOf(t.jobTrail, id) == [] && StatesOf(t.trace, id) == []
    ensures LinksInStage(t.links, id, 0) == [] && LinksInStage(t.links, id, 1) == []
  {
    NoMovesNoStates(t.jobTrail, id);
    NoMovesNoStates(t.trace, id);
    NoLinks(t.links, id, 0);
    NoLinks(t.links, id, 1);
  }

  lemma {:induction false} NoLinks(rows: seq<LinkRow>, id: string, stage: nat)
    requires forall r | r in rows :: r.jobId != id || r.stageIndex != stage
    ensures LinksInStage(rows, id, stage) == []
  {
    if rows != [] {
      assert rows[0] in rows;
      NoLinks(rows[1..], id, stage);
    }
  }

  ghost predicate FreshLink(rows: seq<LinkRow>, linkId: string) {
    forall r | r in rows :: r.link.id != linkId
  }

  lemma {:induction false} FreshLinkIsAppended(rows: seq<LinkRow>, jobId: string, link: Link)
    requires FreshLink(rows, link.id)
    ensures UpsertRow(rows, jobId, link) == rows + [LinkRow(jobId, link.stageIndex, link)]
  {
    if rows != [] {
      assert rows[0] in rows;
      FreshLinkIsAppended(rows[1..], jobId, link);
      assert rows + [LinkRow(jobId, link.stageIndex, link)]
        == [rows[0]] + (rows[1..] + [LinkRow(jobId, link.stageIndex, link)]);
    }
  }

  lemma {:induction false} LinksInStageOfConcat(a: seq<LinkRow>, b: seq<LinkRow>, id: string, stage: nat)
    ensures LinksInStage(a + b, id, stage) == LinksInStage(a, id, stage) + LinksInStage(b, id, stage)
  {
    if a == [] {
      assert a + b == b;
    } else {
      assert (a + b)[1..] == a[1..] + b;
      LinksInStageOfConcat(a[1..], b, id, stage);
    }
  }

  lemma StageOfAppended(rows: seq<LinkRow>, id: string, first: Link, more: seq<LinkRow>, stage: nat)
    requires (forall r | r in rows :: r.jobId != id) && |more| <= 1
    requires forall r | r in more :: r.jobId == id && r.stageIndex == 1
    ensures LinksInStage(rows + [LinkRow(id, 0, first)] + more, id, stage)
         == if stage == 0 then [first] else if stage == 1 && more != [] then [more[0].link] else []
  {
    NoLinks(rows, id, stage);
    LinksInStageOfConcat(rows + [LinkRow(id, 0, first)], more, id, stage);
    LinksInStageOfConcat(rows, [LinkRow(id, 0, first)], id, stage);
    SingleLink(LinkRow(id, 0, first), id, stage);
    if more != [] {
      assert more[0] in more && more == [more[0]];
      SingleLink(more[0], id, stage);
    }
  }

  /** Two links appended under fresh ids for a job that had none are its links, in stage order; the
      second may be missing. */
  lemma {:induction false} LinksOfAppended(rows: seq<LinkRow>, id: string, first: Link, second: Option<Link>,
                                           stages: nat)
    requires forall r | r in rows :: r.jobId != id
    requires first.stageIndex == 0 && (second.Some? ==> second.value.stageIndex == 1) && stages >= 2
    ensures var more := if second.Some? then [LinkRow(id, 1, second.value)] else [];
      LinksUpTo(rows + [LinkRow(id, 0, first)] + more, id, stages)
        == [first] + (if second.Some? then [second.value] else [])
    decreases stages
  {
    var more := if second.Some? then [LinkRow(id, 1, second.value)] else [];
    StageOfAppended(rows, id, first, more, stages - 1);
    if stages > 2 {
      LinksOfAppended(rows, id, first, second, stages - 1);
    } else {
      StageOfAppended(rows, id, first, more, 0);
      assert LinksUpTo(rows + [LinkRow(id, 0, first)] + more, id, 0) == [];
      assert LinksUpTo(rows + [LinkRow(id, 0, first)] + more, id, 1) == [first];
    }
  }

  lemma SingleLink(r: LinkRow, id: string, stage: nat)
    ensures LinksInStage([r], id, stage) == if r.jobId == id && r.stageIndex == stage then [r.link] else []
  {
    assert [r][1..] == [];
  }

  // ------------------------------------------------------------------ what the operations log

  /** Taking and closing a job append to its own rows, and to no other's. */
  lemma JobRowsDo(t: Tables, id: string, other: string)
    ensures Taken(t, id).jobs == t.jobs[id := Claimed] && Closing(t, id).jobs == t.jobs[id := Closed]
    ensures StatesOf(Taken(t, id).jobTrail, other)
         == StatesOf(t.jobTrail, other) + (if other == id then [Queued, Claimed] else [])
    ensures StatesOf(Closing(t, id).jobTrail, other)
         == StatesOf(t.jobTrail, other) + (if other == id then [Closed] else [])
  {
    StatesAfter(t.jobTrail, Move(id, None, Queued), other);
    StatesAfter(t.jobTrail + [Move(id, None, Queued)], Move(id, Some(Queued), Claimed), other);
    StatesAfter(t.jobTrail, Move(id, Some(Claimed), Closed), other);
  }

  /** Setting a chain's state replaces it, and traces it exactly if it changes. */
  lemma UpsertDoes(t: Tables, id: string, s: ChainState)
    ensures id in t.chains && t.chains[id] == s ==> Upserted(t, id, s) == t
    ensures !(id in t.chains && t.chains[id] == s) ==>
      Upserted(t, id, s)
      == Tables(jobs := t.jobs, jobTrail := t.jobTrail, chains := t.chains[id := s],
                trace := t.trace + [Move(id, if id in t.chains then Some(t.chains[id]) else None, s)], links := t.links)
  {
    if id in t.chains && t.chains[id] == s {
      assert t.chains[id := s] == t.chains;
    }
  }
}
