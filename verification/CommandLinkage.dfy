/** The linkage check of an acceptance run: the trail recomputes, every command is proposed, completed
    and observed in it, follows the one before it, and feeds the next model call. */
module CommandLinkage {
  import opened Wrappers
  import AuditTrail

  /** An audit event with the two details this check reads out of it, which may be missing. */
  datatype Event = Event(row: AuditTrail.Event, commandId: Option<string>, commandText: Option<string>)

  function Rows(events: seq<Event>): (rows: seq<AuditTrail.Event>)
    ensures |rows| == |events| && forall i | 0 <= i < |rows| :: rows[i] == events[i].row
  {
    seq(|events|, i requires 0 <= i < |events| => events[i].row)
  }

  datatype Command = Command(id: string, text: string, parent: Option<string>)

  datatype Observation = Observation(commandId: string, id: string)

  datatype Call = Call(inputs: seq<string>, decision: string)

  /** `results` holds the command id of each result. */
  datatype Run = Run(commands: seq<Command>, results: seq<string>, observations: seq<Observation>, calls: seq<Call>)

  const Proposals: set<string> := {"AI_SHELL_COMMAND_PROPOSED"}
  const Completions: set<string> := {"AI_SHELL_COMMAND_COMPLETED", "AI_SHELL_COMMAND_TIMED_OUT",
                                     "AI_SHELL_COMMAND_TERMINATED"}
  const Sightings: set<string> := {"AI_ADVERSARY_OBSERVATION"}

  // ------------------------------------------------------------------ what the check demands

  /** The last event of one of the kinds that names the command. */
  function LastOf(events: seq<Event>, kinds: set<string>, id: string): Option<Event> {
    if events == [] then None
    else
      var e := events[|events| - 1];
      if e.row.eventType in kinds && e.commandId == Some(id) then Some(e) else LastOf(events[..|events| - 1], kinds, id)
  }

  predicate CommandLinked(events: seq<Event>, run: Run, i: nat)
    requires i < |run.commands|
  {
    var c := run.commands[i];
    var proposal := LastOf(events, Proposals, c.id);
    && proposal.Some? && LastOf(events, Completions, c.id).Some? && LastOf(events, Sightings, c.id).Some?
    && proposal.value.row.actorType == "AI_MODEL" && proposal.value.commandText == Some(c.text)
    && c.parent == (if i == 0 then None else Some(run.commands[i - 1].id))
    && i < |run.results| && run.results[i] == c.id
    && i < |run.observations| && run.observations[i].commandId == c.id
  }

  function ObservationIds(observations: seq<Observation>): (ids: seq<string>)
    ensures |ids| == |observations| && forall i | 0 <= i < |ids| :: ids[i] == observations[i].id
  {
    seq(|observations|, i requires 0 <= i < |observations| => observations[i].id)
  }

  /** The first `i` elements, or all of them if there are fewer. */
  function Take<T>(s: seq<T>, i: nat): seq<T> {
    if i <= |s| then s[..i] else s
  }

  predicate CallLinked(run: Run, i: nat)
    requires i < |run.calls|
  {
    run.calls[i].inputs == ObservationIds(Take(run.observations, i))
  }

  predicate Named(e: Event) {
    e.row.eventType in Proposals + Completions + Sightings ==> e.commandId.Some?
  }

  predicate Verified(events: seq<Event>) {
    exists e | e in events :: e.row.eventType == "VERIFICATION_COMPLETED" && e.row.actorType == "VERIFIER"
  }

  predicate Stopped(events: seq<Event>) {
    exists e | e in events :: e.row.eventType == "AI_ADVERSARY_STOPPED"
  }

  predicate LinkageHolds(hash: AuditTrail.Hash, events: seq<Event>, run: Run) {
    && AuditTrail.Accepted(hash, Rows(events))
    && (forall e | e in events :: Named(e))
    && (forall i | 0 <= i < |run.commands| :: CommandLinked(events, run, i))
    && (forall i | 0 <= i < |run.calls| :: CallLinked(run, i))
    && run.calls != [] && run.calls[|run.calls| - 1].decision == "stop"
    && Stopped(events) && Verified(events)
  }

  // ------------------------------------------------------------------ the check as it runs

  type Index = map<string, Event>

  /** The map holds the last event of its kinds for every command. */
  ghost predicate Indexes(index: Index, events: seq<Event>, kinds: set<string>) {
    forall id: string :: LastOf(events, kinds, id) == if id in index then Some(index[id]) else None
  }

  /** One dictionary comprehension: later events overwrite earlier ones; an event of the kinds
      without a command id raises. */
  method IndexEvents(events: seq<Event>, kinds: set<string>) returns (index: Option<Index>)
    ensures index.Some? <==> forall e | e in events :: e.row.eventType in kinds ==> e.commandId.Some?
    ensures index.Some? ==> Indexes(index.value, events, kinds)
  {
    var found: Index := map[];
    for i := 0 to |events|
      invariant forall e | e in events[..i] :: e.row.eventType in kinds ==> e.commandId.Some?
      invariant Indexes(found, events[..i], kinds)
    {
      assert events[..i + 1][..i] == events[..i];
      var e := events[i];
      if e.row.eventType in kinds {
        if e.commandId.None? {
          return None;
        }
        found := found[e.commandId.value := e];
      }
    }
    assert events[..|events|] == events;
    return Some(found);
  }

  method CheckCommands(events: seq<Event>, run: Run, proposed: Index, completed: Index, observed: Index)
    returns (ok: bool)
    requires Indexes(proposed, events, Proposals) && Indexes(completed, events, Completions)
             && Indexes(observed, events, Sightings)
    ensures ok <==> forall i | 0 <= i < |run.commands| :: CommandLinked(events, run, i)
  {
    for i := 0 to |run.commands|
      invariant forall k | 0 <= k < i :: CommandLinked(events, run, k)
    {
      var c := run.commands[i];
      var parent := if i == 0 then None else Some(run.commands[i - 1].id);
      if !(c.id in proposed && c.id in completed && c.id in observed
           && proposed[c.id].row.actorType == "AI_MODEL" && proposed[c.id].commandText == Some(c.text)
           && c.parent == parent
           && i < |run.results| && run.results[i] == c.id
           && i < |run.observations| && run.observations[i].commandId == c.id) {
        assert !CommandLinked(events, run, i);
        return false;
      }
    }
    return true;
  }

  /** The whole check; false stands for a failed assertion, a missing key or an index out of range. */
  method AssertLinkage(hash: AuditTrail.Hash, events: seq<Event>, run: Run) returns (ok: bool)
    ensures ok <==> LinkageHolds(hash, events, run)
  {
    var recomputes := AuditTrail.AssertAuditChain(hash, Rows(events));
    if !recomputes {
      return false;
    }
    var proposed := IndexEvents(events, Proposals);
    var completed := IndexEvents(events, Completions);
    var observed := IndexEvents(events, Sightings);
    if proposed.None? || completed.None? || observed.None? {
      return false;
    }
    assert forall e | e in events :: Named(e);
    var linked := CheckCommands(events, run, proposed.value, completed.value, observed.value);
    if !linked {
      return false;
    }
    for i := 0 to |run.calls|
      invariant forall k | 0 <= k < i :: CallLinked(run, k)
    {
      if run.calls[i].inputs != ObservationIds(Take(run.observations, i)) {
        assert !CallLinked(run, i);
        return false;
      }
    }
    return run.calls != [] && run.calls[|run.calls| - 1].decision == "stop" && Stopped(events) && Verified(events);
  }

  /** What `LastOf` means: a matching event with none after it. */
  lemma {:induction false} LastOfIsLast(events: seq<Event>, kinds: set<string>, id: string, e: Event)
    ensures LastOf(events, kinds, id) == Some(e)
       <==> exists i | 0 <= i < |events| ::
              events[i] == e && Matches(e, kinds, id) && forall j | i < j < |events| :: !Matches(events[j], kinds, id)
  {
    if events != [] {
      var front, last := events[..|events| - 1], events[|events| - 1];
      LastOfIsLast(front, kinds, id, e);
      assert Matches(last, kinds, id) <==> last.row.eventType in kinds && last.commandId == Some(id);
      if Matches(last, kinds, id) {
        assert last == e ==> events[|events| - 1] == e;
      } else {
        assert forall i | 0 <= i < |front| :: front[i] == events[i];
      }
    }
  }

  predicate Matches(e: Event, kinds: set<string>, id: string) {
    e.row.eventType in kinds && e.commandId == Some(id)
  }

  // ------------------------------------------------------------------ what an accepted run shows

  lemma {:induction false} LastOfExists(events: seq<Event>, kinds: set<string>, id: string)
    ensures LastOf(events, kinds, id).Some? <==> exists e | e in events :: Matches(e, kinds, id)
  {
    if events != [] {
      var front, last := events[..|events| - 1], events[|events| - 1];
      LastOfExists(front, kinds, id);
      assert Matches(last, kinds, id) <==> last.row.eventType in kinds && last.commandId == Some(id);
      assert forall e | e in events :: e in front || e == last;
      assert forall e | e in front :: e in events;
    }
  }

  predicate Reports(e: Event, eventType: string, id: string) {
    e.row.eventType == eventType && e.commandId == Some(id)
  }

  /** The last proposal of the command, event `i`, was made by the model and has the command's text. */
  ghost predicate ProposedBy(events: seq<Event>, i: nat, c: Command) {
    && i < |events|
    && Reports(events[i], "AI_SHELL_COMMAND_PROPOSED", c.id)
    && events[i].row.actorType == "AI_MODEL" && events[i].commandText == Some(c.text)
    && forall j | i < j < |events| :: !Reports(events[j], "AI_SHELL_COMMAND_PROPOSED", c.id)
  }

  /** The command was proposed by the model, ended in one of three ways and observed, and the run's own
      lists agree with it. */
  ghost predicate InEvidence(events: seq<Event>, run: Run, i: nat)
    requires i < |run.commands|
  {
    var c := run.commands[i];
    && (exists j | 0 <= j < |events| :: ProposedBy(events, j, c))
    && (exists e | e in events :: || Reports(e, "AI_SHELL_COMMAND_COMPLETED", c.id)
                                  || Reports(e, "AI_SHELL_COMMAND_TIMED_OUT", c.id)
                                  || Reports(e, "AI_SHELL_COMMAND_TERMINATED", c.id))
    && (exists e | e in events :: Reports(e, "AI_ADVERSARY_OBSERVATION", c.id))
    && c.parent == (if i == 0 then None else Some(run.commands[i - 1].id))
    && i < |run.results| && run.results[i] == c.id
    && i < |run.observations| && run.observations[i].commandId == c.id
  }

  lemma InEvidenceIff(events: seq<Event>, run: Run, i: nat)
    requires i < |run.commands|
    ensures CommandLinked(events, run, i) <==> InEvidence(events, run, i)
  {
    var c := run.commands[i];
    assert forall e :: Matches(e, Proposals, c.id) <==> Reports(e, "AI_SHELL_COMMAND_PROPOSED", c.id);
    assert forall e :: Matches(e, Sightings, c.id) <==> Reports(e, "AI_ADVERSARY_OBSERVATION", c.id);
    assert forall e :: Matches(e, Completions, c.id) <==>
      || Reports(e, "AI_SHELL_COMMAND_COMPLETED", c.id) || Reports(e, "AI_SHELL_COMMAND_TIMED_OUT", c.id)
      || Reports(e, "AI_SHELL_COMMAND_TERMINATED", c.id);
    LastOfExists(events, Completions, c.id);
    LastOfExists(events, Sightings, c.id);
    LastOfExists(events, Proposals, c.id);
    var proposal := LastOf(events, Proposals, c.id);
    if proposal.Some? {
      LastOfIsLast(events, Proposals, c.id, proposal.value);
      var j :| 0 <= j < |events| && events[j] == proposal.value && Matches(events[j], Proposals, c.id)
               && forall k | j < k < |events| :: !Matches(events[k], Proposals, c.id);
      if CommandLinked(events, run, i) {
        assert ProposedBy(events, j, c);
      }
    }
    if j :| 0 <= j < |events| && ProposedBy(events, j, c) {
      LastOfIsLast(events, Proposals, c.id, events[j]);
    }
  }

  /** The types of event that must name their command. */
  const NamingTypes: set<string> := {
    "AI_SHELL_COMMAND_PROPOSED", "AI_SHELL_COMMAND_COMPLETED", "AI_SHELL_COMMAND_TIMED_OUT",
    "AI_SHELL_COMMAND_TERMINATED", "AI_ADVERSARY_OBSERVATION"}

  /** A run is accepted exactly if the trail recomputes, every event about a command names it, every
      command is in evidence, every model call saw the observations before it and the last one decided
      to stop, and the trail says that the adversary stopped and the verifier completed. */
  lemma AcceptedMeans(hash: AuditTrail.Hash, events: seq<Event>, run: Run)
    ensures LinkageHolds(hash, events, run) <==>
      && (forall e | e in events :: AuditTrail.Recomputes(hash, e.row))
      && (forall e | e in events :: e.row.eventType in NamingTypes ==> e.commandId.Some?)
      && (forall i | 0 <= i < |run.commands| :: InEvidence(events, run, i))
      && (forall i | 0 <= i < |run.calls| :: SawEarlier(run, i))
      && run.calls != [] && run.calls[|run.calls| - 1].decision == "stop"
      && (exists e | e in events :: e.row.eventType == "AI_ADVERSARY_STOPPED")
      && (exists e | e in events :: e.row.eventType == "VERIFICATION_COMPLETED" && e.row.actorType == "VERIFIER")
  {
    assert Proposals + Completions + Sightings == NamingTypes;
    assert forall e :: Named(e) <==> (e.row.eventType in NamingTypes ==> e.commandId.Some?);
    forall i | 0 <= i < |run.commands|
      ensures CommandLinked(events, run, i) <==> InEvidence(events, run, i)
    {
      InEvidenceIff(events, run, i);
    }
    forall i | 0 <= i < |run.calls|
      ensures CallLinked(run, i) <==> SawEarlier(run, i)
    {
    }
    if AuditTrail.Accepted(hash, Rows(events)) {
      forall e | e in events
        ensures AuditTrail.Recomputes(hash, e.row)
      {
        var i :| 0 <= i < |events| && events[i] == e;
        assert Rows(events)[i] == e.row;
      }
    }
  }

  /** Call `i` saw the ids of the first `i` observations, in order, or of all if there are fewer. */
  predicate SawEarlier(run: Run, i: nat)
    requires i < |run.calls|
  {
    var inputs := run.calls[i].inputs;
    && |inputs| == (if i <= |run.observations| then i else |run.observations|)
    && forall k | 0 <= k < |inputs| :: inputs[k] == run.observations[k].id
  }

  // ------------------------------------------------------------------ one linear history

  function Ids(commands: seq<Command>): (ids: seq<string>)
    ensures |ids| == |commands| && forall i | 0 <= i < |ids| :: ids[i] == commands[i].id
  {
    seq(|commands|, i requires 0 <= i < |commands| => commands[i].id)
  }

  ghost predicate Distinct(ids: seq<string>) {
    forall i, j | 0 <= i < j < |ids| :: ids[i] != ids[j]
  }

  /** Each command names the one before it as its parent. */
  ghost predicate ParentChain(commands: seq<Command>) {
    forall i | 0 <= i < |commands| :: HasParent(commands, i)
  }

  predicate HasParent(commands: seq<Command>, i: nat)
    requires i < |commands|
  {
    commands[i].parent == if i == 0 then None else Some(commands[i - 1].id)
  }

  /** The place of the first command with an id. */
  function Place(commands: seq<Command>, id: string): (k: nat)
    ensures k <= |commands|
    ensures k < |commands| ==> commands[k].id == id
    ensures forall i | 0 <= i < k :: commands[i].id != id
  {
    if commands == [] || commands[0].id == id then 0 else 1 + Place(commands[1..], id)
  }

  /** Follow parent ids, each looked up among the commands, for at most `steps` commands. */
  function Walk(commands: seq<Command>, id: string, steps: nat): seq<string>
    decreases steps
  {
    var k := Place(commands, id);
    if steps == 0 || k == |commands| then []
    else if commands[k].parent.None? then [id]
    else [id] + Walk(commands, commands[k].parent.value, steps - 1)
  }

  function Reversed(ids: seq<string>): (r: seq<string>)
    ensures |r| == |ids|
  {
    if ids == [] then [] else [ids[|ids| - 1]] + Reversed(ids[..|ids| - 1])
  }

  lemma {:induction false} WalkReverses(commands: seq<Command>, k: nat, steps: nat)
    requires ParentChain(commands) && Distinct(Ids(commands)) && k < |commands| && k < steps
    ensures Walk(commands, commands[k].id, steps) == Reversed(Ids(commands)[..k + 1])
  {
    var ids := Ids(commands);
    assert Place(commands, commands[k].id) == k by {
      var p := Place(commands, commands[k].id);
      assert ids[k] == ids[p];
    }
    assert ids[..k + 1][..k] == ids[..k];
    assert HasParent(commands, k);
    if k > 0 {
      WalkReverses(commands, k - 1, steps - 1);
    } else {
      assert ids[..0] == [];
      assert Reversed(ids[..1]) == [ids[0]] + Reversed(ids[..0]);
    }
  }

  lemma {:induction false} WalkIsShort(commands: seq<Command>, id: string, steps: nat)
    requires ParentChain(commands) && Place(commands, id) < |commands|
    ensures |Walk(commands, id, steps)| <= Place(commands, id) + 1
    decreases steps
  {
    var k := Place(commands, id);
    assert HasParent(commands, k);
    if steps > 0 && k > 0 {
      WalkIsShort(commands, commands[k - 1].id, steps - 1);
    }
  }

  lemma {:induction false} RepeatsCutTheWalk(commands: seq<Command>, k: nat, steps: nat)
    requires ParentChain(commands) && k < |commands| && !Distinct(Ids(commands)[..k + 1])
    ensures |Walk(commands, commands[k].id, steps)| < k + 1
    decreases k
  {
    var p := Place(commands, commands[k].id);
    WalkIsShort(commands, commands[k].id, steps);
    assert HasParent(commands, k);
    if p == k && steps > 0 {
      var ids := Ids(commands);
      var i, j :| 0 <= i < j < k + 1 && ids[..k + 1][i] == ids[..k + 1][j];
      assert j != k;
      assert ids[..k][i] == ids[..k][j];
      RepeatsCutTheWalk(commands, k - 1, steps - 1);
    }
  }

  lemma AcceptedIsParentChain(hash: AuditTrail.Hash, events: seq<Event>, run: Run)
    requires LinkageHolds(hash, events, run)
    ensures ParentChain(run.commands)
  {
    forall i | 0 <= i < |run.commands|
      ensures HasParent(run.commands, i)
    {
      assert CommandLinked(events, run, i);
    }
  }

  /** In an accepted run, following parents from the last command leads back through every command
      to the first exactly if no command id occurs twice, which the check does not test. */
  lemma AcceptedIsOneHistoryIff(hash: AuditTrail.Hash, events: seq<Event>, run: Run, steps: nat)
    requires LinkageHolds(hash, events, run) && run.commands != [] && steps >= |run.commands|
    ensures var ids := Ids(run.commands);
      Walk(run.commands, ids[|ids| - 1], steps) == Reversed(ids) <==> Distinct(ids)
  {
    AcceptedIsParentChain(hash, events, run);
    var ids := Ids(run.commands);
    assert ids[..|ids|] == ids;
    if Distinct(ids) {
      WalkReverses(run.commands, |ids| - 1, steps);
    } else {
      RepeatsCutTheWalk(run.commands, |ids| - 1, steps);
    }
  }

  /** The model calls of an accepted run see nested prefixes of the observations: each call sees what
      the ones before it saw, and one observation more while there are any. */
  lemma InputsAreNested(hash: AuditTrail.Hash, events: seq<Event>, run: Run, j: nat, k: nat)
    requires LinkageHolds(hash, events, run) && j <= k < |run.calls|
    ensures run.calls[j].inputs <= run.calls[k].inputs <= ObservationIds(run.observations)
    ensures |run.calls[k].inputs| == if k <= |run.observations| then k else |run.observations|
  {
    assert CallLinked(run, j) && CallLinked(run, k);
  }

  /** Results, observations and commands of an accepted run name the same command at every index. */
  lemma AcceptedIsAligned(hash: AuditTrail.Hash, events: seq<Event>, run: Run)
    requires LinkageHolds(hash, events, run)
    ensures Ids(run.commands) <= run.results
    ensures |run.observations| >= |run.commands|
    ensures forall i | 0 <= i < |run.commands| :: run.observations[i].commandId == run.commands[i].id
  {
    if run.commands != [] {
      assert CommandLinked(events, run, |run.commands| - 1);
    }
    forall i | 0 <= i < |run.commands|
      ensures run.observations[i].commandId == run.commands[i].id && run.results[i] == Ids(run.commands)[i]
    {
      assert CommandLinked(events, run, i);
    }
  }

  // ------------------------------------------------------------------ an accepted run that repeats an id

  /** An event that recomputes. */
  function Signed(hash: AuditTrail.Hash, eventType: string, actorType: string): (row: AuditTrail.Event)
    ensures AuditTrail.Recomputes(hash, row) && row.eventType == eventType && row.actorType == actorType
  {
    var unsigned := AuditTrail.Event("", "run", eventType, actorType, "", "", "");
    var row := unsigned.(digest := hash(AuditTrail.Encode(unsigned)));
    assert AuditTrail.Encode(row) == AuditTrail.Encode(unsigned);
    row
  }

  function RepeatedEvents(hash: AuditTrail.Hash): seq<Event> {
    [Event(Signed(hash, "AI_SHELL_COMMAND_PROPOSED", "AI_MODEL"), Some("x"), Some("id")),
     Event(Signed(hash, "AI_SHELL_COMMAND_COMPLETED", "RUNNER"), Some("x"), None),
     Event(Signed(hash, "AI_ADVERSARY_OBSERVATION", "RUNNER"), Some("x"), None),
     Event(Signed(hash, "AI_ADVERSARY_STOPPED", "CONTROLLER"), None, None),
     Event(Signed(hash, "VERIFICATION_COMPLETED", "VERIFIER"), None, None)]
  }

  /** Two commands with one id; the second is its own parent. */
  const RepeatedRun := Run(
    [Command("x", "id", None), Command("x", "id", Some("x"))], ["x", "x"],
    [Observation("x", "o1"), Observation("x", "o2")], [Call([], "continue"), Call(["o1"], "stop")])

  lemma RepeatedLookups(hash: AuditTrail.Hash)
    ensures var events := RepeatedEvents(hash);
      && LastOf(events, Proposals, "x") == Some(events[0])
      && LastOf(events, Completions, "x") == Some(events[1])
      && LastOf(events, Sightings, "x") == Some(events[2])
  {
    var events := RepeatedEvents(hash);
    LastOfIsLast(events, Proposals, "x", events[0]);
    LastOfIsLast(events, Completions, "x", events[1]);
    LastOfIsLast(events, Sightings, "x", events[2]);
    assert Matches(events[0], Proposals, "x") && Matches(events[1], Completions, "x")
      && Matches(events[2], Sightings, "x");
  }

  lemma RepeatedCommands(hash: AuditTrail.Hash)
    ensures forall i | 0 <= i < 2 :: CommandLinked(RepeatedEvents(hash), RepeatedRun, i)
  {
    RepeatedLookups(hash);
  }

  lemma RepeatedCalls()
    ensures forall i | 0 <= i < 2 :: CallLinked(RepeatedRun, i)
  {
    assert ObservationIds(Take(RepeatedRun.observations, 1)) == ["o1"];
    assert ObservationIds(Take(RepeatedRun.observations, 0)) == [];
  }

  lemma RepeatedIsLinked(hash: AuditTrail.Hash)
    ensures LinkageHolds(hash, RepeatedEvents(hash), RepeatedRun)
  {
    RepeatedCommands(hash);
    RepeatedCalls();
    RepeatedIsAudited(hash);
  }

  lemma RepeatedIsAudited(hash: AuditTrail.Hash)
    ensures var events := RepeatedEvents(hash);
      && AuditTrail.Accepted(hash, Rows(events)) && Stopped(events) && Verified(events)
      && forall e | e in events :: Named(e)
  {
    var events := RepeatedEvents(hash);
    assert Stopped(events) by { assert events[3] in events; }
    assert Verified(events) by { assert events[4] in events; }
  }

  /** Whatever the hash, the check accepts it, and following parents from the last command does not lead
      back through both commands. */
  lemma RepeatedIdIsAccepted(hash: AuditTrail.Hash)
    ensures LinkageHolds(hash, RepeatedEvents(hash), RepeatedRun)
    ensures Walk(RepeatedRun.commands, "x", 2) != Reversed(Ids(RepeatedRun.commands))
  {
    RepeatedIsLinked(hash);
    var ids := Ids(RepeatedRun.commands);
    assert ids[0] == ids[1] == "x";
    AcceptedIsOneHistoryIff(hash, RepeatedEvents(hash), RepeatedRun, 2);
  }
}
