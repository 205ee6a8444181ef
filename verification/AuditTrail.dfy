/** The hash-chained audit trail: the store that writes it, the audit check that re-computes
    the digests, and what an accepted trail does and does not prove. The hash is abstract. */
module AuditTrail {
  import opened Digests

  /** `details` is the canonical JSON text. */
  datatype Event = Event(
    previousDigest: string, runId: string, eventType: string, actorType: string, timestamp: string,
    details: string, digest: string)

  type Hash = string -> Digest

  function Encode(e: Event): string {
    e.previousDigest + "\n" + (e.runId + "\n" + (e.eventType + "\n"
                                                 + (e.actorType + "\n" + (e.timestamp + "\n" + e.details))))
  }

  predicate Recomputes(hash: Hash, e: Event) {
    hash(Encode(e)) == e.digest
  }

  predicate Accepted(hash: Hash, events: seq<Event>) {
    forall i | 0 <= i < |events| :: Recomputes(hash, events[i])
  }

  /** The audit check: re-compute every digest; the chain itself is not followed. */
  method AssertAuditChain(hash: Hash, events: seq<Event>) returns (ok: bool)
    ensures ok <==> Accepted(hash, events)
  {
    for i := 0 to |events|
      invariant Accepted(hash, events[..i])
    {
      if !Recomputes(hash, events[i]) {
        return false;
      }
    }
    assert events[..|events|] == events;
    return true;
  }

  /** Every event names the digest of the one before it, the first one the given start. */
  predicate Linked(start: string, events: seq<Event>) {
    forall i | 0 <= i < |events| :: Follows(start, events, i)
  }

  predicate Follows(start: string, events: seq<Event>, i: nat)
    requires i < |events|
  {
    events[i].previousDigest == if i == 0 then start else events[i - 1].digest
  }

  // ------------------------------------------------------------------ the store

  /** The store: one table for all runs, each event chained to the last one of any run. */
  class Store {
    const hash: Hash
    var rows: seq<Event>

    constructor (hash: Hash)
      ensures this.hash == hash && rows == [] && Valid()
    {
      this.hash := hash;
      rows := [];
    }

    ghost predicate Valid()
      reads this
    {
      Accepted(hash, rows) && Linked(Genesis, rows)
    }

    method Audit(runId: string, eventType: string, actorType: string, timestamp: string, details: string)
        returns (e: Event)
      requires Valid()
      modifies this`rows
      ensures Valid() && rows == old(rows) + [e]
      ensures e.runId == runId && e.eventType == eventType && e.actorType == actorType
           && e.timestamp == timestamp && e.details == details
    {
      var previous: string := if rows == [] then Genesis else rows[|rows| - 1].digest;
      var unsigned := Event(previous, runId, eventType, actorType, timestamp, details, "");
      e := unsigned.(digest := hash(Encode(unsigned)));
      assert Encode(e) == Encode(unsigned);
      ghost var before := rows;
      rows := rows + [e];
      forall i | 0 <= i < |rows|
        ensures Recomputes(hash, rows[i]) && Follows(Genesis, rows, i)
      {
        assert i < |before| ==> Recomputes(hash, before[i]) && Follows(Genesis, before, i);
      }
    }

    method Events(runId: string, limit: int) returns (events: seq<Event>)
      ensures events == EventsOf(rows, runId, limit)
    {
      events := EventsOf(rows, runId, limit);
    }
  }

  /** The events of one run, oldest first, at most `limit` of them, clamped to 1..1000. */
  function EventsOf(rows: seq<Event>, runId: string, limit: int): seq<Event> {
    var bounded := if limit > 1000 then 1000 else if limit < 1 then 1 else limit;
    var mine := Filter(rows, runId);
    if |mine| <= bounded then mine else mine[..bounded]
  }

  function Filter(events: seq<Event>, runId: string): (mine: seq<Event>)
    ensures forall e | e in mine :: e in events && e.runId == runId
  {
    if events == [] then []
    else
      var last := events[|events| - 1];
      Filter(events[..|events| - 1], runId) + (if last.runId == runId then [last] else [])
  }

  // ------------------------------------------------------------------ the encoding

  predicate NoNewline(s: string) {
    '\n' !in s
  }

  /** The fields before the details hold no newline. */
  predicate PlainFields(e: Event) {
    && NoNewline(e.previousDigest) && NoNewline(e.runId) && NoNewline(e.eventType)
    && NoNewline(e.actorType) && NoNewline(e.timestamp)
  }

  lemma {:induction false} FirstFieldIsUnique(a: string, b: string, x: string, y: string)
    requires NoNewline(a) && NoNewline(b) && a + "\n" + x == b + "\n" + y
    ensures a == b && x == y
  {
    var s, t := a + "\n" + x, b + "\n" + y;
    if a == [] || b == [] {
      assert s[0] == t[0];
      assert a == [] && b == [];
      assert s[1..] == x && t[1..] == y;
    } else {
      assert s[1..] == a[1..] + "\n" + x && t[1..] == b[1..] + "\n" + y;
      assert s[0] == a[0] && t[0] == b[0];
      FirstFieldIsUnique(a[1..], b[1..], x, y);
      assert a == [a[0]] + a[1..] && b == [b[0]] + b[1..];
    }
  }

  /** Plain events with the same encoding agree in every encoded field. */
  lemma EncodingIsInjective(d: Event, e: Event)
    requires PlainFields(d) && PlainFields(e) && Encode(d) == Encode(e)
    ensures d.(digest := e.digest) == e
  {
    var ts := d.timestamp + "\n" + d.details;
    var ts' := e.timestamp + "\n" + e.details;
    var at, at' := d.actorType + "\n" + ts, e.actorType + "\n" + ts';
    var et, et' := d.eventType + "\n" + at, e.eventType + "\n" + at';
    var rt, rt' := d.runId + "\n" + et, e.runId + "\n" + et';
    FirstFieldIsUnique(d.previousDigest, e.previousDigest, rt, rt');
    FirstFieldIsUnique(d.runId, e.runId, et, et');
    FirstFieldIsUnique(d.eventType, e.eventType, at, at');
    FirstFieldIsUnique(d.actorType, e.actorType, ts, ts');
    FirstFieldIsUnique(d.timestamp, e.timestamp, d.details, e.details);
  }

  function Newlines(s: string): nat {
    if s == [] then 0 else (if s[0] == '\n' then 1 else 0) + Newlines(s[1..])
  }

  lemma {:induction false} NewlinesOfConcat(a: string, b: string)
    ensures Newlines(a + b) == Newlines(a) + Newlines(b)
  {
    if a == [] {
      assert a + b == b;
    } else {
      assert (a + b)[1..] == a[1..] + b;
      NewlinesOfConcat(a[1..], b);
    }
  }

  lemma {:induction false} NewlinesIff(s: string)
    ensures Newlines(s) == 0 <==> NoNewline(s)
  {
    if s != [] {
      NewlinesIff(s[1..]);
      assert s == [s[0]] + s[1..];
    }
  }

  lemma NewlinesOfField(field: string, rest: string)
    ensures Newlines(field + "\n" + rest) == Newlines(field) + 1 + Newlines(rest)
  {
    NewlinesOfConcat(field + "\n", rest);
    NewlinesOfConcat(field, "\n");
    assert "\n"[1..] == "";
  }

  /** The newlines of an encoding: one for every separator, and those of the fields. */
  lemma NewlinesOfEncoding(e: Event)
    ensures Newlines(Encode(e)) == 5 + Newlines(e.previousDigest) + Newlines(e.runId) + Newlines(e.eventType)
                                     + Newlines(e.actorType) + Newlines(e.timestamp) + Newlines(e.details)
  {
    var ts := e.timestamp + "\n" + e.details;
    var at := e.actorType + "\n" + ts;
    var et := e.eventType + "\n" + at;
    NewlinesOfField(e.timestamp, e.details);
    NewlinesOfField(e.actorType, ts);
    NewlinesOfField(e.eventType, at);
    NewlinesOfField(e.runId, et);
    NewlinesOfField(e.previousDigest, e.runId + "\n" + et);
  }

  /** No field of the event, the details included, holds a newline. */
  predicate AllPlain(e: Event) {
    PlainFields(e) && NoNewline(e.details)
  }

  lemma AllPlainIff(e: Event)
    ensures AllPlain(e) <==> Newlines(Encode(e)) == 5
  {
    NewlinesOfEncoding(e);
    NewlinesIff(e.previousDigest);
    NewlinesIff(e.runId);
    NewlinesIff(e.eventType);
    NewlinesIff(e.actorType);
    NewlinesIff(e.timestamp);
    NewlinesIff(e.details);
  }

  /** The encoding of `e` stands for `e` alone, up to its digest. */
  ghost predicate Unambiguous(e: Event) {
    forall d | Encode(d) == Encode(e) :: d.(digest := e.digest) == e
  }

  lemma PlainIsUnambiguous(e: Event)
    requires AllPlain(e)
    ensures Unambiguous(e)
  {
    forall d | Encode(d) == Encode(e)
      ensures d.(digest := e.digest) == e
    {
      AllPlainIff(e);
      AllPlainIff(d);
      EncodingIsInjective(d, e);
    }
  }

  /** A field with a newline is two lines. */
  lemma {:induction false} TwoLines(field: string) returns (line: string, rest: string)
    requires !NoNewline(field)
    ensures field == line + "\n" + rest && line != field
  {
    if field[0] == '\n' {
      line, rest := "", field[1..];
    } else {
      line, rest := TwoLines(field[1..]);
      line := [field[0]] + line;
    }
  }

  /** The line break between two lines of a field can pass for the separator after it: the second line
      then moves to the next field. */
  lemma LineMoves(line: string, rest: string, next: string, more: string)
    ensures (line + "\n" + rest) + "\n" + (next + "\n" + more) == line + "\n" + ((rest + "\n" + next) + "\n" + more)
    ensures (line + "\n" + rest) + "\n" + next == line + "\n" + (rest + "\n" + next)
  {
  }

  lemma NewlineIsAmbiguous(e: Event)
    requires !AllPlain(e)
    ensures !Unambiguous(e)
  {
    var d := Shifted(e);
    assert Encode(d) == Encode(e) && d.(digest := e.digest) != e;
  }

  /** Another event with the same encoding: across each of the five separators a line can move. */
  lemma Shifted(e: Event) returns (d: Event)
    requires !AllPlain(e)
    ensures Encode(d) == Encode(e) && d.(digest := e.digest) != e
  {
    var ts := e.timestamp + "\n" + e.details;
    var at := e.actorType + "\n" + ts;
    var et := e.eventType + "\n" + at;
    if !NoNewline(e.previousDigest) {
      var line, rest := TwoLines(e.previousDigest);
      d := e.(previousDigest := line, runId := rest + "\n" + e.runId);
      LineMoves(line, rest, e.runId, et);
    } else if !NoNewline(e.runId) {
      var line, rest := TwoLines(e.runId);
      d := e.(runId := line, eventType := rest + "\n" + e.eventType);
      LineMoves(line, rest, e.eventType, at);
    } else if !NoNewline(e.eventType) {
      var line, rest := TwoLines(e.eventType);
      d := e.(eventType := line, actorType := rest + "\n" + e.actorType);
      LineMoves(line, rest, e.actorType, ts);
    } else if !NoNewline(e.actorType) {
      var line, rest := TwoLines(e.actorType);
      d := e.(actorType := line, timestamp := rest + "\n" + e.timestamp);
      LineMoves(line, rest, e.timestamp, e.details);
    } else if !NoNewline(e.timestamp) {
      var line, rest := TwoLines(e.timestamp);
      d := e.(timestamp := line, details := rest + "\n" + e.details);
      LineMoves(line, rest, e.details, "");
    } else {
      var line, rest := TwoLines(e.details);
      d := e.(timestamp := e.timestamp + "\n" + line, details := rest);
      LineMoves(e.timestamp, line, rest, "");
    }
  }

  /** An encoding stands for one event exactly if none of its six fields holds a newline. */
  lemma UnambiguousIff(e: Event)
    ensures Unambiguous(e) <==> AllPlain(e)
  {
    if AllPlain(e) {
      PlainIsUnambiguous(e);
    } else {
      NewlineIsAmbiguous(e);
    }
  }

  // ------------------------------------------------------------------ what the head digest fixes

  /** The hash tells the encodings of the two trails apart. */
  predicate NoCollision(hash: Hash, a: seq<Event>, b: seq<Event>) {
    forall d, e | d in a && e in b :: ToldApart(hash, d, e)
  }

  predicate ToldApart(hash: Hash, d: Event, e: Event) {
    hash(Encode(d)) == hash(Encode(e)) ==> Encode(d) == Encode(e)
  }

  ghost predicate Trail(hash: Hash, start: string, events: seq<Event>) {
    && Accepted(hash, events) && Linked(start, events)
    && forall e | e in events :: PlainFields(e)
  }

  lemma TrailPrefix(hash: Hash, start: string, events: seq<Event>)
    requires Trail(hash, start, events) && events != []
    ensures Trail(hash, start, events[..|events| - 1])
    ensures Follows(start, events, |events| - 1)
  {
    var front := events[..|events| - 1];
    forall i | 0 <= i < |front|
      ensures Recomputes(hash, front[i]) && Follows(start, front, i)
    {
      assert Recomputes(hash, events[i]) && Follows(start, events, i);
    }
  }

  lemma LastEventsAgree(hash: Hash, a: seq<Event>, b: seq<Event>)
    requires a != [] && b != [] && Accepted(hash, a) && Accepted(hash, b) && NoCollision(hash, a, b)
    requires PlainFields(a[|a| - 1]) && PlainFields(b[|b| - 1])
    requires a[|a| - 1].digest == b[|b| - 1].digest
    ensures a[|a| - 1] == b[|b| - 1]
  {
    assert Recomputes(hash, a[|a| - 1]) && Recomputes(hash, b[|b| - 1]);
    assert ToldApart(hash, a[|a| - 1], b[|b| - 1]);
    EncodingIsInjective(a[|a| - 1], b[|b| - 1]);
  }

  /** The head digest determines the history: two accepted, linked trails of the same length with
      the same last digest are equal, event by event, whatever they start from. */
  lemma {:induction false} HeadDeterminesHistory(hash: Hash, s: string, a: seq<Event>, t: string, b: seq<Event>)
    requires Trail(hash, s, a) && Trail(hash, t, b) && NoCollision(hash, a, b)
    requires |a| == |b| && (a != [] ==> a[|a| - 1].digest == b[|b| - 1].digest)
    ensures a == b
  {
    if a != [] {
      var front, front' := a[..|a| - 1], b[..|b| - 1];
      assert a[|a| - 1] in a && b[|b| - 1] in b;
      LastEventsAgree(hash, a, b);
      TrailPrefix(hash, s, a);
      TrailPrefix(hash, t, b);
      HeadDeterminesHistory(hash, s, front, t, front');
      assert a == front + [a[|a| - 1]] && b == front' + [b[|b| - 1]];
    }
  }

  /** No digest is the start value. */
  ghost predicate NeverStart(start: string, events: seq<Event>) {
    forall e | e in events :: e.digest != start
  }

  /** Of two trails from the same start value, such as the store's, not even the length need be known. */
  lemma {:induction false} HeadDeterminesLength(hash: Hash, start: string, a: seq<Event>, b: seq<Event>)
    requires Trail(hash, start, a) && Trail(hash, start, b) && NoCollision(hash, a, b)
    requires NeverStart(start, a) && NeverStart(start, b)
    requires a != [] && b != [] && a[|a| - 1].digest == b[|b| - 1].digest
    ensures a == b
  {
    var front, front' := a[..|a| - 1], b[..|b| - 1];
    assert a[|a| - 1] in a && b[|b| - 1] in b;
    LastEventsAgree(hash, a, b);
    TrailPrefix(hash, start, a);
    TrailPrefix(hash, start, b);
    assert a == front + [a[|a| - 1]] && b == front' + [b[|b| - 1]];
    if front != [] && front' != [] {
      HeadDeterminesLength(hash, start, front, front');
    }
  }

  // ------------------------------------------------------------------ what the check does not see

  /** Acceptance does not follow the chain: any selection from an accepted trail is accepted, so
      deleting events goes unnoticed. */
  lemma SelectionIsAccepted(hash: Hash, events: seq<Event>, kept: seq<Event>)
    requires Accepted(hash, events) && forall e | e in kept :: e in events
    ensures Accepted(hash, kept)
  {
    forall i | 0 <= i < |kept|
      ensures Recomputes(hash, kept[i])
    {
      assert kept[i] in events;
    }
  }

  /** A deletion from inside a linked trail breaks the chain, unless two digests collide. */
  lemma DeletionBreaksTheChain(start: string, events: seq<Event>, i: nat)
    requires Linked(start, events) && i + 1 < |events|
    requires events[i].digest != (if i == 0 then start else events[i - 1].digest)
    ensures !Linked(start, events[..i] + events[i + 1..])
  {
    var rest := events[..i] + events[i + 1..];
    assert rest[i] == events[i + 1] && Follows(start, events, i + 1);
    assert i > 0 ==> rest[i - 1] == events[i - 1];
    assert !Follows(start, rest, i);
  }

  // ------------------------------------------------------------------ the events of one run

  /** Each event after the first names the digest of the one before it. */
  ghost predicate Chained(events: seq<Event>) {
    events == [] || Linked(events[0].previousDigest, events)
  }

  /** Every event of the run but its first comes right after another one of the run. */
  ghost predicate Contiguous(rows: seq<Event>, runId: string) {
    forall k | 0 <= k < |rows| :: Unbroken(rows, runId, k)
  }

  predicate Unbroken(rows: seq<Event>, runId: string, k: nat)
    requires k < |rows|
  {
    rows[k].runId == runId && Filter(rows[..k], runId) != [] ==> k > 0 && rows[k - 1].runId == runId
  }

  ghost predicate DistinctDigests(rows: seq<Event>) {
    forall i, j | 0 <= i < j < |rows| :: rows[i].digest != rows[j].digest
  }

  lemma ChainedOneMore(events: seq<Event>, last: Event)
    requires events != []
    ensures Chained(events + [last]) <==> Chained(events) && last.previousDigest == events[|events| - 1].digest
  {
    var more := events + [last];
    var start := events[0].previousDigest;
    assert forall i | 0 <= i < |events| :: Follows(start, more, i) <==> Follows(start, events, i);
    assert Follows(start, more, |events|) <==> last.previousDigest == events[|events| - 1].digest;
  }

  /** The last event of a run, and the rows after it. */
  lemma {:induction false} LastOfRun(rows: seq<Event>, runId: string) returns (m: nat)
    requires Filter(rows, runId) != []
    ensures m < |rows| && rows[m].runId == runId && Filter(rows, runId)[|Filter(rows, runId)| - 1] == rows[m]
    ensures forall j | m < j < |rows| :: rows[j].runId != runId
  {
    if rows[|rows| - 1].runId == runId {
      m := |rows| - 1;
    } else {
      m := LastOfRun(rows[..|rows| - 1], runId);
    }
  }

  lemma {:induction false} FilterNone(rows: seq<Event>, runId: string)
    ensures Filter(rows, runId) == [] <==> forall e | e in rows :: e.runId != runId
  {
    if rows != [] {
      var front, last := rows[..|rows| - 1], rows[|rows| - 1];
      assert rows == front + [last];
      FilterNone(front, runId);
    }
  }

  /** So no event of another run lies between two events of this one, and conversely. */
  lemma ContiguousIff(rows: seq<Event>, runId: string)
    ensures Contiguous(rows, runId) <==> forall i, k | 0 <= i < k < |rows| :: NoneBetween(rows, runId, i, k)
  {
    if Contiguous(rows, runId) {
      forall i, k | 0 <= i < k < |rows|
        ensures NoneBetween(rows, runId, i, k)
      {
        if rows[i].runId == runId && rows[k].runId == runId {
          forall j | i < j < k
            ensures rows[j].runId == runId
          {
            BackFrom(rows, runId, i, j, k);
          }
        }
      }
    } else if forall i, k | 0 <= i < k < |rows| :: NoneBetween(rows, runId, i, k) {
      var k :| 0 <= k < |rows| && !Unbroken(rows, runId, k);
      var i := LastOfRun(rows[..k], runId);
      assert NoneBetween(rows, runId, i, k);
    }
  }

  ghost predicate NoneBetween(rows: seq<Event>, runId: string, i: nat, k: nat)
    requires i < k < |rows|
  {
    rows[i].runId == runId && rows[k].runId == runId ==> forall j | i < j < k :: rows[j].runId == runId
  }

  lemma {:induction false} BackFrom(rows: seq<Event>, runId: string, i: nat, j: nat, k: nat)
    requires Contiguous(rows, runId) && i <= j <= k < |rows| && rows[i].runId == runId && rows[k].runId == runId
    ensures rows[j].runId == runId
    decreases k - j
  {
    if j < k {
      BackFrom(rows, runId, i, j + 1, k);
      FilterNone(rows[..j + 1], runId);
      assert rows[..j + 1][i] == rows[i];
      assert Unbroken(rows, runId, j + 1);
    }
  }

  lemma ContiguousOneMore(front: seq<Event>, last: Event, runId: string)
    ensures Contiguous(front + [last], runId)
       <==> Contiguous(front, runId)
            && (last.runId == runId && Filter(front, runId) != [] ==> front != [] && front[|front| - 1].runId == runId)
  {
    var rows := front + [last];
    assert rows[..|front|] == front;
    forall k | 0 <= k < |front|
      ensures Unbroken(rows, runId, k) <==> Unbroken(front, runId, k)
    {
      assert rows[..k] == front[..k];
    }
    assert Unbroken(rows, runId, |front|)
      <==> (last.runId == runId && Filter(front, runId) != [] ==> front != [] && front[|front| - 1].runId == runId);
  }

  lemma ChainStep(start: string, front: seq<Event>, last: Event, runId: string)
    requires Linked(start, front + [last]) && DistinctDigests(front + [last]) && last.runId == runId
    requires Filter(front, runId) != []
    ensures Chained(Filter(front, runId) + [last])
       <==> Chained(Filter(front, runId)) && front != [] && front[|front| - 1].runId == runId
  {
    var rows := front + [last];
    ChainedOneMore(Filter(front, runId), last);
    var m := LastOfRun(front, runId);
    assert Follows(start, rows, |front|);
    assert rows[m] == front[m] && rows[|front| - 1] == front[|front| - 1];
    assert m != |front| - 1 ==> rows[m].digest != rows[|front| - 1].digest;
  }

  lemma FilterOneMore(front: seq<Event>, last: Event, runId: string)
    ensures Filter(front + [last], runId) == Filter(front, runId) + (if last.runId == runId then [last] else [])
  {
    assert (front + [last])[..|front|] == front;
  }

  lemma ChainedOne(e: Event)
    ensures Chained([e])
  {
    assert Follows(e.previousDigest, [e], 0);
  }

  lemma RunStep(start: string, front: seq<Event>, last: Event, runId: string)
    requires Linked(start, front + [last]) && DistinctDigests(front + [last])
    requires Chained(Filter(front, runId)) <==> Contiguous(front, runId)
    ensures Chained(Filter(front + [last], runId)) <==> Contiguous(front + [last], runId)
  {
    FilterOneMore(front, last, runId);
    ContiguousOneMore(front, last, runId);
    var mine := Filter(front, runId);
    if last.runId != runId {
      assert mine + [] == mine;
    } else if mine == [] {
      assert mine + [last] == [last];
      ChainedOne(last);
    } else {
      ChainStep(start, front, last, runId);
    }
  }

  /** In a linked store with distinct digests, the events of a run are a chain of their own exactly if
      they are contiguous in the store. */
  lemma {:induction false} RunIsChainIff(start: string, rows: seq<Event>, runId: string)
    requires Linked(start, rows) && DistinctDigests(rows)
    ensures Chained(Filter(rows, runId)) <==> Contiguous(rows, runId)
  {
    if rows != [] {
      var n := |rows| - 1;
      assert rows == rows[..n] + [rows[n]];
      LinkedPrefix(start, rows, n);
      RunIsChainIff(start, rows[..n], runId);
      RunStep(start, rows[..n], rows[n], runId);
    }
  }

  lemma LinkedPrefix(start: string, rows: seq<Event>, n: nat)
    requires Linked(start, rows) && n <= |rows|
    ensures Linked(start, rows[..n])
  {
    assert forall i | 0 <= i < n :: Follows(start, rows, i) ==> Follows(start, rows[..n], i);
  }

  /** What a caller gets is the run's part of a prefix of the store, so the same holds of it:
      all of it, or as much as the limit allows, which counts as 1 to 1000. */
  lemma {:induction false} EventsAreAPrefix(rows: seq<Event>, runId: string, limit: int)
    ensures exists n | 0 <= n <= |rows| :: EventsOf(rows, runId, limit) == Filter(rows[..n], runId)
    ensures var most, all := if limit < 1 then 1 else if limit > 1000 then 1000 else limit, |Filter(rows, runId)|;
      |EventsOf(rows, runId, limit)| == if all < most then all else most
  {
    assert rows[..|rows|] == rows;
    var bounded := if limit > 1000 then 1000 else if limit < 1 then 1 else limit;
    if |Filter(rows, runId)| > bounded {
      var n := FilterPrefix(rows, runId, bounded);
    } else {
      assert EventsOf(rows, runId, limit) == Filter(rows[..|rows|], runId);
    }
  }

  lemma {:induction false} FilterPrefix(rows: seq<Event>, runId: string, count: nat) returns (n: nat)
    requires count <= |Filter(rows, runId)|
    ensures n <= |rows| && Filter(rows[..n], runId) == Filter(rows, runId)[..count]
  {
    if count == |Filter(rows, runId)| {
      n := |rows|;
      assert rows[..n] == rows;
    } else {
      var front := rows[..|rows| - 1];
      n := FilterPrefix(front, runId, count);
      assert front[..n] == rows[..n];
    }
  }

  /** The head digest of a run's events determines them, if no other run's events lie between them: two
      stores that return equally many events of such a run, ending in the same digest, return the same
      events. */
  lemma HeadDeterminesRun(hash: Hash, s: string, a: seq<Event>, t: string, b: seq<Event>, runId: string, limit: int)
    requires Trail(hash, s, a) && Trail(hash, t, b) && NoCollision(hash, a, b)
    requires DistinctDigests(a) && Contiguous(a, runId) && DistinctDigests(b) && Contiguous(b, runId)
    requires var x, y := EventsOf(a, runId, limit), EventsOf(b, runId, limit);
      |x| == |y| && (x != [] ==> x[|x| - 1].digest == y[|y| - 1].digest)
    ensures EventsOf(a, runId, limit) == EventsOf(b, runId, limit)
  {
    var x, y := EventsOf(a, runId, limit), EventsOf(b, runId, limit);
    RunIsTrail(hash, s, a, runId, limit);
    RunIsTrail(hash, t, b, runId, limit);
    assert NoCollision(hash, x, y);
    if x != [] {
      HeadDeterminesHistory(hash, x[0].previousDigest, x, y[0].previousDigest, y);
    }
  }

  /** The events of a contiguous run are an accepted, linked trail. */
  lemma RunIsTrail(hash: Hash, s: string, rows: seq<Event>, runId: string, limit: int)
    requires Trail(hash, s, rows) && DistinctDigests(rows) && Contiguous(rows, runId)
    ensures var x := EventsOf(rows, runId, limit);
      && (forall e | e in x :: e in rows)
      && (x != [] ==> Trail(hash, x[0].previousDigest, x))
  {
    var x := EventsOf(rows, runId, limit);
    EventsAreAPrefix(rows, runId, limit);
    var n :| 0 <= n <= |rows| && x == Filter(rows[..n], runId);
    var part := rows[..n];
    LinkedPrefix(s, rows, n);
    forall k | 0 <= k < n
      ensures Unbroken(part, runId, k)
    {
      assert part[..k] == rows[..k] && Unbroken(rows, runId, k);
    }
    RunIsChainIff(s, part, runId);
    assert forall e | e in part :: e in rows;
    SelectionIsAccepted(hash, rows, x);
  }

  /** A run's own events are accepted, but they are a chain of their own only by accident: here the
      store holds two runs, and the second run's first event names an event of the first. */
  lemma RunTrailNeedNotBeLinked(hash: Hash, first: Event, second: Event)
    requires Accepted(hash, [first, second]) && Linked(Genesis, [first, second])
    requires first.runId != second.runId && first.digest != Genesis
    ensures Filter([first, second], second.runId) == [second]
    ensures Accepted(hash, [second]) && !Linked(Genesis, [second])
  {
    var rows := [first, second];
    assert rows[..1] == [first] && [first][..0] == [];
    assert Filter([first], second.runId) == [];
    assert Follows(Genesis, rows, 1) && !Follows(Genesis, [second], 0);
    SelectionIsAccepted(hash, rows, [second]);
  }
}
