/** The HTTP side of the runner: the `runs` and `events` tables, run creation, the
    status endpoint and the polling loop behind the server-sent event stream.
    Every database read is modelled as a snapshot of the store; the store only
    ever grows (runs are inserted, events appended with increasing ids). */
module Server {
  import opened Wrappers
  import opened Protocol

  /** A row of the `events` table. `ts` is a reading of an abstract clock. */
  datatype StoredEvent = StoredEvent(id: nat, runId: string, ts: nat, data: EventData)

  /** What one database read sees. */
  datatype StoreView = StoreView(runs: map<string, RunRecord>, events: seq<StoredEvent>)

  /** Rows are kept in id order, and ids are strictly increasing. */
  predicate IdsIncreasing(evs: seq<StoredEvent>)
  {
    forall i, j :: 0 <= i < j < |evs| ==> evs[i].id < evs[j].id
  }

  /** The `events` table as SQLite's integer primary key leaves it: ids start at 1
      and increase in insertion order. */
  predicate ValidLog(evs: seq<StoredEvent>)
  {
    IdsIncreasing(evs) && forall i :: 0 <= i < |evs| ==> 1 <= evs[i].id
  }

  /** The largest id in the table, 0 when it is empty. */
  function MaxId(evs: seq<StoredEvent>): nat
  {
    if evs == [] then 0 else evs[|evs| - 1].id
  }

  /** The id the next inserted event receives. */
  function NextId(evs: seq<StoredEvent>): (id: nat)
    ensures id == MaxId(evs) + 1
  {
    MaxId(evs) + 1
  }

  /** A later read of the same database: events only appended, runs only inserted. */
  predicate Extends(a: StoreView, b: StoreView)
  {
    && |a.events| <= |b.events|
    && b.events[..|a.events|] == a.events
    && a.runs.Keys <= b.runs.Keys
  }

  lemma ExtendsTransitive(a: StoreView, b: StoreView, c: StoreView)
    requires Extends(a, b) && Extends(b, c)
    ensures Extends(a, c)
  {
    assert c.events[..|a.events|] == c.events[..|b.events|][..|a.events|];
  }

  /** The two tables. Runs are inserted by `create_run`; events are inserted by the
      runner, each commit giving the row the next integer id. */
  class Store {
    var runs: map<string, RunRecord>
    var events: seq<StoredEvent>

    /** The tables as `init_db` creates them. */
    constructor ()
      ensures runs == map[] && events == []
      ensures Valid()
    {
      runs := map[];
      events := [];
    }

    ghost predicate Valid()
      reads this
    {
      ValidLog(events)
    }

    /** What a read of the database sees now. */
    function View(): StoreView
      reads this
    {
      StoreView(runs, events)
    }

    /** `create_run`: insert a queued run under the fresh id and answer with that id.
        The status endpoint then reports it queued, at step 0 of 0. */
    method CreateRun(runId: string, problem: string, now: nat) returns (createdId: string)
      requires runId !in runs
      modifies this`runs
      ensures runs == old(runs)[runId := NewRun(runId, problem, now)]
      ensures createdId == runId
      ensures Extends(old(View()), View())
      ensures GetRunStatus(View(), runId) == Ok(RunStatus(runId, Queued, 0, 0, None, now, None, None))
    {
      runs := runs[runId := NewRun(runId, problem, now)];
      createdId := runId;
    }

    /** The insert behind `emit_event`: the row gets the next id and the commit time. */
    method AppendEvent(runId: string, data: EventData, now: nat)
      requires Valid()
      modifies this`events
      ensures events == old(events) + [StoredEvent(NextId(old(events)), runId, now, data)]
      ensures Valid()
      ensures Extends(old(View()), View())
    {
      var e := StoredEvent(NextId(events), runId, now, data);
      AppendKeepsOrder(events, e);
      events := events + [e];
    }
  }

  /** Appending a row with the next id keeps ids increasing and positive. */
  lemma AppendKeepsOrder(evs: seq<StoredEvent>, e: StoredEvent)
    requires ValidLog(evs) && e.id == NextId(evs)
    ensures ValidLog(evs + [e])
  {
    forall i | 0 <= i < |evs|
      ensures evs[i].id < e.id
    {
      if i < |evs| - 1 {
        assert evs[i].id < evs[|evs| - 1].id;
      }
    }
  }

  /** The body of `GET /api/runs/{run_id}`. */
  datatype RunStatus = RunStatus(
    runId: string,
    status: Status,
    currentStepIndex: int,
    totalSteps: int,
    startedAt: Option<nat>,
    updatedAt: nat,
    finalOutput: Option<string>,
    error: Option<string>)

  datatype HttpError = HttpError(statusCode: nat, detail: string)

  /** `get_run_status`: 404 "Run not found" for an unknown id; otherwise the run's
      columns except the problem and the state snapshot. */
  function GetRunStatus(v: StoreView, runId: string): (r: Result<RunStatus, HttpError>)
    ensures r.Err? <==> runId !in v.runs
    ensures r.Err? ==> r.error == HttpError(404, "Run not found")
    ensures r.Ok? ==> r.value.runId == v.runs[runId].runId && r.value.status == v.runs[runId].status
  {
    if runId !in v.runs then Err(HttpError(404, "Run not found"))
    else
      var run := v.runs[runId];
      Ok(RunStatus(run.runId, run.status, run.currentStepIndex, run.totalSteps,
                   run.startedAt, run.updatedAt, run.finalOutput, run.error))
  }

  /** `SELECT … FROM events WHERE run_id = r AND id > cursor ORDER BY id`: the run's
      events above the cursor, in table order (which is id order). */
  function RunEvents(evs: seq<StoredEvent>, runId: string, cursor: nat): seq<StoredEvent>
  {
    if evs == [] then []
    else
      var last := evs[|evs| - 1];
      RunEvents(evs[..|evs| - 1], runId, cursor)
        + (if last.runId == runId && last.id > cursor then [last] else [])
  }

  lemma {:induction false} RunEventsAppend(a: seq<StoredEvent>, b: seq<StoredEvent>, runId: string, cursor: nat)
    ensures RunEvents(a + b, runId, cursor) == RunEvents(a, runId, cursor) + RunEvents(b, runId, cursor)
    decreases |b|
  {
    if b == [] {
      assert a + b == a;
    } else {
      var b' := b[..|b| - 1];
      assert (a + b)[..|a + b| - 1] == a + b';
      RunEventsAppend(a, b', runId, cursor);
    }
  }

  /** What the query returns: events of that run, above the cursor, drawn from the table. */
  lemma {:induction false} RunEventsSound(evs: seq<StoredEvent>, runId: string, cursor: nat)
    ensures forall k :: 0 <= k < |RunEvents(evs, runId, cursor)| ==>
      && RunEvents(evs, runId, cursor)[k].runId == runId
      && RunEvents(evs, runId, cursor)[k].id > cursor
      && RunEvents(evs, runId, cursor)[k] in evs
    decreases |evs|
  {
    if evs != [] {
      var init := evs[..|evs| - 1];
      RunEventsSound(init, runId, cursor);
      var q0 := RunEvents(init, runId, cursor);
      var q := RunEvents(evs, runId, cursor);
      forall k | 0 <= k < |q|
        ensures q[k].runId == runId && q[k].id > cursor && q[k] in evs
      {
        if k < |q0| {
          assert q[k] == q0[k];
          assert q0[k] in init;
          var i :| 0 <= i < |init| && init[i] == q0[k];
          assert evs[i] == init[i];
        } else {
          assert q[k] == evs[|evs| - 1];
        }
      }
    }
  }

  /** Every event of that run above the cursor is returned. */
  lemma {:induction false} RunEventsComplete(evs: seq<StoredEvent>, runId: string, cursor: nat)
    ensures forall i :: 0 <= i < |evs| && evs[i].runId == runId && evs[i].id > cursor ==>
      evs[i] in RunEvents(evs, runId, cursor)
    decreases |evs|
  {
    if evs != [] {
      var init := evs[..|evs| - 1];
      RunEventsComplete(init, runId, cursor);
      forall i | 0 <= i < |evs| && evs[i].runId == runId && evs[i].id > cursor
        ensures evs[i] in RunEvents(evs, runId, cursor)
      {
        if i < |evs| - 1 {
          assert evs[i] == init[i];
        }
      }
    }
  }

  /** The query returns its rows in increasing id order. */
  lemma {:induction false} RunEventsIncreasing(evs: seq<StoredEvent>, runId: string, cursor: nat)
    requires IdsIncreasing(evs)
    ensures IdsIncreasing(RunEvents(evs, runId, cursor))
    decreases |evs|
  {
    if evs != [] {
      var init := evs[..|evs| - 1];
      var last := evs[|evs| - 1];
      RunEventsIncreasing(init, runId, cursor);
      RunEventsSound(init, runId, cursor);
      var q0 := RunEvents(init, runId, cursor);
      forall k | 0 <= k < |q0|
        ensures q0[k].id < last.id
      {
        assert q0[k] in init;
        var i :| 0 <= i < |init| && init[i] == q0[k];
        assert evs[i] == init[i];
      }
    }
  }

  /** Every event of the run above the cursor has an id no larger than the last one
      the query returns. */
  lemma RunEventsLastIsMax(evs: seq<StoredEvent>, runId: string, cursor: nat)
    requires IdsIncreasing(evs)
    ensures forall i :: 0 <= i < |evs| && evs[i].runId == runId && evs[i].id > cursor ==>
      evs[i].id <= MaxId(RunEvents(evs, runId, cursor))
  {
    var q := RunEvents(evs, runId, cursor);
    RunEventsComplete(evs, runId, cursor);
    RunEventsIncreasing(evs, runId, cursor);
    forall i | 0 <= i < |evs| && evs[i].runId == runId && evs[i].id > cursor
      ensures evs[i].id <= MaxId(q)
    {
      assert evs[i] in q;
      var k :| 0 <= k < |q| && q[k] == evs[i];
      if k < |q| - 1 {
        assert q[k].id < q[|q| - 1].id;
      }
    }
  }

  lemma {:induction false} RunEventsNone(evs: seq<StoredEvent>, runId: string, cursor: nat)
    requires forall i :: 0 <= i < |evs| && evs[i].runId == runId ==> evs[i].id <= cursor
    ensures RunEvents(evs, runId, cursor) == []
    decreases |evs|
  {
    if evs != [] {
      RunEventsNone(evs[..|evs| - 1], runId, cursor);
    }
  }

  lemma {:induction false} RunEventsAllAbove(evs: seq<StoredEvent>, runId: string, cursor: nat)
    requires forall i :: 0 <= i < |evs| ==> evs[i].id > cursor
    ensures RunEvents(evs, runId, cursor) == RunEvents(evs, runId, 0)
    decreases |evs|
  {
    if evs != [] {
      RunEventsAllAbove(evs[..|evs| - 1], runId, cursor);
    }
  }

  /** The cursor covers a table: it is no larger than the table's last id, and every
      event of the run there has an id at or below it. */
  predicate Covers(evs: seq<StoredEvent>, runId: string, cursor: nat)
  {
    && cursor <= MaxId(evs)
    && forall i :: 0 <= i < |evs| && evs[i].runId == runId ==> evs[i].id <= cursor
  }

  /** One poll of the stream. The cursor covers the events of the previously fetched
      table `seen`: each of the run's events there is at or below it, and it is no
      larger than the last id there. Fetching from a later table `now` then returns
      exactly the run's events appended since, so what was delivered before plus this
      batch is the run's whole history in `now`. */
  lemma FetchContinues(seen: seq<StoredEvent>, now: seq<StoredEvent>, runId: string, cursor: nat)
    requires ValidLog(now) && |seen| <= |now| && now[..|seen|] == seen
    requires Covers(seen, runId, cursor)
    ensures RunEvents(seen, runId, 0) + RunEvents(now, runId, cursor) == RunEvents(now, runId, 0)
  {
    var rest := now[|seen|..];
    assert now == seen + rest;
    AppendedAbove(seen, now, cursor);
    FetchSplits(seen, rest, runId, cursor);
  }

  lemma FetchSplits(seen: seq<StoredEvent>, rest: seq<StoredEvent>, runId: string, cursor: nat)
    requires forall i :: 0 <= i < |seen| && seen[i].runId == runId ==> seen[i].id <= cursor
    requires forall i :: 0 <= i < |rest| ==> rest[i].id > cursor
    ensures RunEvents(seen, runId, 0) + RunEvents(seen + rest, runId, cursor) == RunEvents(seen + rest, runId, 0)
  {
    RunEventsAppend(seen, rest, runId, cursor);
    RunEventsAppend(seen, rest, runId, 0);
    RunEventsNone(seen, runId, cursor);
    RunEventsAllAbove(rest, runId, cursor);
  }

  /** Rows appended after `seen` have ids above any cursor within `seen`. */
  lemma AppendedAbove(seen: seq<StoredEvent>, now: seq<StoredEvent>, cursor: nat)
    requires ValidLog(now) && |seen| <= |now| && now[..|seen|] == seen
    requires cursor <= MaxId(seen)
    ensures forall i :: 0 <= i < |now| - |seen| ==> now[|seen|..][i].id > cursor
  {
    forall i | 0 <= i < |now| - |seen|
      ensures now[|seen|..][i].id > cursor
    {
      assert now[|seen|..][i] == now[|seen| + i];
      if seen != [] {
        assert seen[|seen| - 1] == now[|seen| - 1];
      }
    }
  }

  /** After a poll the cursor, moved to the last id fetched, covers the table `now`. */
  lemma FetchAdvances(seen: seq<StoredEvent>, now: seq<StoredEvent>, runId: string, cursor: nat)
    requires ValidLog(now) && |seen| <= |now| && now[..|seen|] == seen
    requires Covers(seen, runId, cursor)
    ensures var batch := RunEvents(now, runId, cursor);
      Covers(now, runId, if batch == [] then cursor else batch[|batch| - 1].id)
  {
    if seen != [] {
      assert seen[|seen| - 1] == now[|seen| - 1];
    }
    var batch := RunEvents(now, runId, cursor);
    RunEventsSound(now, runId, cursor);
    RunEventsLastIsMax(now, runId, cursor);
    if batch != [] {
      var last := batch[|batch| - 1];
      assert last in now;
      var i :| 0 <= i < |now| && now[i] == last;
      assert now[i].id <= MaxId(now);
    }
    forall i | 0 <= i < |now| && now[i].runId == runId
      ensures now[i].id <= (if batch == [] then cursor else batch[|batch| - 1].id)
    {
      if i < |seen| {
        assert now[i] == seen[i];
      }
    }
  }

  /** A server-sent event: the one error event for an unknown run, or an event row
      rendered as `{ts, type, data}`. */
  datatype Message = ErrorMessage(text: string) | EventMessage(ts: nat, kind: string, data: EventData)

  /** The `data` of the error event sent for an unknown run. */
  const NotFoundData: string := "{\"error\": \"Run not found\"}"

  function ToMessage(e: StoredEvent): Message
  {
    EventMessage(e.ts, TypeName(e.data), e.data)
  }

  /** The messages sent for a list of rows, one per row, in order. */
  function Messages(evs: seq<StoredEvent>): seq<Message>
  {
    if evs == [] then [] else Messages(evs[..|evs| - 1]) + [ToMessage(evs[|evs| - 1])]
  }

  lemma MessagesSnoc(evs: seq<StoredEvent>, e: StoredEvent)
    ensures Messages(evs + [e]) == Messages(evs) + [ToMessage(e)]
  {
    assert (evs + [e])[..|evs|] == evs;
  }

  lemma {:induction false} MessagesAppend(a: seq<StoredEvent>, b: seq<StoredEvent>)
    ensures Messages(a + b) == Messages(a) + Messages(b)
    decreases |b|
  {
    if b == [] {
      assert a + b == a;
    } else {
      var b' := b[..|b| - 1];
      assert (a + b)[..|a + b| - 1] == a + b';
      MessagesAppend(a, b');
    }
  }

  /** How a stream ends: after the error event, after a status read that saw the run
      finished, or not within the reads observed (the real loop keeps polling). */
  datatype StreamEnd = NotFound | Closed | StillPolling

  /** One iteration's two reads, in the order they happen. */
  datatype Poll = Poll(early: StoreView, late: StoreView)

  /** The reads of one stream are successive snapshots of one growing database:
      the existence check, then each iteration's two reads. */
  predicate Timeline(first: StoreView, polls: seq<Poll>)
  {
    && ValidLog(first.events)
    && (forall k :: 0 <= k < |polls| ==>
          ValidLog(polls[k].early.events) && ValidLog(polls[k].late.events)
          && Extends(polls[k].early, polls[k].late))
    && (|polls| > 0 ==> Extends(first, polls[0].early))
    && (forall k :: 0 <= k < |polls| - 1 ==> Extends(polls[k].late, polls[k + 1].early))
  }

  /** The status read sees the run finished. */
  predicate Finished(v: StoreView, runId: string)
  {
    runId in v.runs && IsTerminal(v.runs[runId].status)
  }

  lemma {:induction false} TimelineKeeps(first: StoreView, polls: seq<Poll>, k: nat)
    requires Timeline(first, polls) && k < |polls|
    ensures Extends(first, polls[k].early) && Extends(first, polls[k].late)
    ensures k + 1 < |polls| ==> Extends(polls[k].early, polls[k + 1].early)
    ensures k + 1 < |polls| ==> Extends(polls[k].late, polls[k + 1].late)
  {
    if k > 0 {
      TimelineKeeps(first, polls, k - 1);
      ExtendsTransitive(first, polls[k - 1].late, polls[k].early);
    }
    ExtendsTransitive(first, polls[k].early, polls[k].late);
    if k + 1 < |polls| {
      ExtendsTransitive(polls[k].early, polls[k].late, polls[k + 1].early);
      ExtendsTransitive(polls[k].late, polls[k + 1].early, polls[k + 1].late);
    }
  }

  /** What the poll before poll `k` fetched; nothing before the first poll. */
  function FetchedBefore(polls: seq<Poll>, k: nat): seq<StoredEvent>
    requires k <= |polls|
  {
    if k == 0 then [] else polls[k - 1].early.events
  }

  /** Poll `k` reads a table that extends the previous poll's, and the run found by
      the existence check is still there when the status is read. */
  lemma NextPoll(first: StoreView, polls: seq<Poll>, k: nat)
    requires Timeline(first, polls) && k < |polls|
    ensures ValidLog(polls[k].early.events)
    ensures |FetchedBefore(polls, k)| <= |polls[k].early.events|
    ensures polls[k].early.events[..|FetchedBefore(polls, k)|] == FetchedBefore(polls, k)
    ensures first.runs.Keys <= polls[k].late.runs.Keys
  {
    TimelineKeeps(first, polls, k);
    if k > 0 {
      TimelineKeeps(first, polls, k - 1);
    }
  }

  /** The inner loop of one poll: send each fetched row and move the cursor to its id. */
  method SendEach(events: seq<StoredEvent>, out0: seq<Message>, ghost delivered0: seq<StoredEvent>, cursor0: nat)
    returns (out: seq<Message>, ghost delivered: seq<StoredEvent>, cursor: nat)
    requires out0 == Messages(delivered0)
    ensures delivered == delivered0 + events && out == Messages(delivered)
    ensures cursor == if events == [] then cursor0 else events[|events| - 1].id
  {
    out, cursor := out0, cursor0;
    var j := 0;
    while j < |events|
      invariant 0 <= j <= |events|
      invariant out == out0 + Messages(events[..j])
      invariant cursor == if j == 0 then cursor0 else events[j - 1].id
    {
      assert events[..j + 1] == events[..j] + [events[j]];
      MessagesSnoc(events[..j], events[j]);
      out := out + [ToMessage(events[j])];
      cursor := events[j].id;
      j := j + 1;
    }
    assert events[..j] == events;
    delivered := delivered0 + events;
    MessagesAppend(delivered0, events);
  }

  /** The body of one poll: fetch the run's events above the cursor from the table
      `now`, send each, and move the cursor to each one's id. If the cursor covered the
      earlier table `seen` and everything of the run there was delivered, afterwards
      everything of the run in `now` has been delivered, in order, and the cursor
      covers `now`. */
  method FetchAndSend(runId: string, ghost seen: seq<StoredEvent>, now: seq<StoredEvent>, cursor: nat,
                      out0: seq<Message>, ghost delivered0: seq<StoredEvent>)
    returns (out: seq<Message>, ghost delivered: seq<StoredEvent>, next: nat)
    requires ValidLog(now) && |seen| <= |now| && now[..|seen|] == seen
    requires Covers(seen, runId, cursor)
    requires delivered0 == RunEvents(seen, runId, 0) && out0 == Messages(delivered0)
    ensures delivered == RunEvents(now, runId, 0) && out == Messages(delivered)
    ensures Covers(now, runId, next)
  {
    FetchContinues(seen, now, runId, cursor);
    FetchAdvances(seen, now, runId, cursor);
    var events := RunEvents(now, runId, cursor);
    out, delivered, next := SendEach(events, out0, delivered0, cursor);
  }

  /** The stream generator as written: check that the run exists, else send one
      error event and stop; otherwise poll. `delivered` is the list of rows sent,
      `iterations` the number of polls made. */
  method EventGenerator(runId: string, first: StoreView, polls: seq<Poll>)
    returns (out: seq<Message>, end: StreamEnd, ghost delivered: seq<StoredEvent>, ghost iterations: nat)
    requires Timeline(first, polls)
    ensures runId !in first.runs <==> end == NotFound
    ensures end == NotFound ==> out == [ErrorMessage(NotFoundData)] && delivered == [] && iterations == 0
    ensures end != NotFound ==> Streamed(runId, polls, out, end, delivered, iterations)
  {
    if runId !in first.runs {
      out, end, delivered, iterations := [ErrorMessage(NotFoundData)], NotFound, [], 0;
      return;
    }
    out, end, delivered, iterations := PollLoop(runId, first, polls);
  }

  /** What the stream of a run that exists has done after `iterations` polls: it sent
      exactly the run's events in the table the last poll fetched, in increasing id
      order; it closed right after the first status read that saw the run finished, or
      it has made every poll observed without seeing that. */
  ghost predicate Streamed(runId: string, polls: seq<Poll>, out: seq<Message>, end: StreamEnd,
                           delivered: seq<StoredEvent>, iterations: nat)
  {
    && end != NotFound
    && iterations <= |polls|
    && out == Messages(delivered)
    && delivered == RunEvents(FetchedBefore(polls, iterations), runId, 0)
    && IdsIncreasing(delivered)
    && (forall k :: 0 <= k < |delivered| ==> delivered[k].runId == runId)
    && (end == Closed ==> 0 < iterations && Finished(polls[iterations - 1].late, runId))
    && (end == StillPolling ==> iterations == |polls|)
    && (forall k :: 0 <= k < iterations - 1 ==> !Finished(polls[k].late, runId))
    && (end == StillPolling ==> forall k :: 0 <= k < |polls| ==> !Finished(polls[k].late, runId))
  }

  /** The polling loop: fetch the run's events above the cursor (the `early` read),
      send each and advance the cursor to its id, read the run's status (the `late`
      read) and stop if it is completed or failed. */
  method PollLoop(runId: string, first: StoreView, polls: seq<Poll>)
    returns (out: seq<Message>, end: StreamEnd, ghost delivered: seq<StoredEvent>, ghost iterations: nat)
    requires Timeline(first, polls) && runId in first.runs
    ensures Streamed(runId, polls, out, end, delivered, iterations)
  {
    delivered := [];
    iterations := 0;
    out := [];
    var lastEventId: nat := 0;
    ghost var seen: seq<StoredEvent> := [];
    var k := 0;
    while true
      invariant 0 <= k <= |polls| && iterations == k
      invariant seen == FetchedBefore(polls, k)
      invariant delivered == RunEvents(seen, runId, 0) && out == Messages(delivered)
      invariant Covers(seen, runId, lastEventId)
      invariant forall j :: 0 <= j < k ==> !Finished(polls[j].late, runId)
      decreases |polls| - k
    {
      if k == |polls| {
        end := StillPolling;
        RunEventsSound(seen, runId, 0);
        RunEventsIncreasing(seen, runId, 0);
        return;
      }
      NextPoll(first, polls, k);
      var now := polls[k].early.events;
      out, delivered, lastEventId := FetchAndSend(runId, seen, now, lastEventId, out, delivered);
      seen := now;
      var status := polls[k].late.runs[runId].status;
      k := k + 1;
      iterations := k;
      if IsTerminal(status) {
        end := Closed;
        RunEventsSound(seen, runId, 0);
        RunEventsIncreasing(seen, runId, 0);
        return;
      }
    }
  }

  /** A stream that closes without sending an event that was already in the table
      when it saw the run finished: the runner commits `run_completed` and then the
      `completed` status, and both commits fall between the loop's fetch and its
      status read. The stream closes having sent nothing. */
  method LostFinalEvent() returns (out: seq<Message>, end: StreamEnd)
    ensures end == Closed && out == []
    ensures LostCase().1[0].late.events == [StoredEvent(1, "r", 0, RunCompleted("done"))]
    ensures Finished(LostCase().1[0].late, "r")
  {
    var (first, polls) := LostCase();
    ghost var delivered, iterations;
    out, end, delivered, iterations := EventGenerator("r", first, polls);
  }

  /** The reads of `LostFinalEvent`: the run exists and is running, nothing has been
      emitted at the fetch, and at the status read `run_completed` is in the table and
      the run is completed. */
  function LostCase(): (StoreView, seq<Poll>)
  {
    var running := StoreView(map["r" := RunRecord("r", "p", Running, 0, 1, Some(0), 0, None, None, None)], []);
    var done := StoreView(map["r" := RunRecord("r", "p", Completed, 0, 1, Some(0), 1, Some("done"), None, None)],
                          [StoredEvent(1, "r", 0, RunCompleted("done"))]);
    (running, [Poll(running, done)])
  }

  /** What the poll before poll `k` of the corrected loop fetched. */
  function FlushedBefore(polls: seq<Poll>, k: nat): seq<StoredEvent>
    requires k <= |polls|
  {
    if k == 0 then [] else polls[k - 1].late.events
  }

  /** In the corrected loop poll `k` reads the status first (`early`) and fetches after
      it (`late`): the fetched table extends the previous fetch's and the status read's. */
  lemma NextFlushedPoll(first: StoreView, polls: seq<Poll>, k: nat)
    requires Timeline(first, polls) && k < |polls|
    ensures ValidLog(polls[k].late.events)
    ensures |FlushedBefore(polls, k)| <= |polls[k].late.events|
    ensures polls[k].late.events[..|FlushedBefore(polls, k)|] == FlushedBefore(polls, k)
    ensures first.runs.Keys <= polls[k].early.runs.Keys
    ensures Extends(polls[k].early, polls[k].late)
  {
    TimelineKeeps(first, polls, k);
    if k > 0 {
      TimelineKeeps(first, polls, k - 1);
    }
  }

  /** The stream of a run that exists, under the corrected loop: it sent exactly the
      run's events in the table the last poll fetched, in increasing id order; when it
      closed, every event of the run that was in the table at the status read that saw
      the run finished had been sent. */
  ghost predicate StreamedFlushed(runId: string, polls: seq<Poll>, out: seq<Message>, end: StreamEnd,
                                  delivered: seq<StoredEvent>, iterations: nat)
  {
    && end != NotFound
    && iterations <= |polls|
    && out == Messages(delivered)
    && delivered == RunEvents(FlushedBefore(polls, iterations), runId, 0)
    && IdsIncreasing(delivered)
    && (forall k :: 0 <= k < |delivered| ==> delivered[k].runId == runId)
    && (end == Closed ==>
          && 0 < iterations && Finished(polls[iterations - 1].early, runId)
          && IsPrefix(RunEvents(polls[iterations - 1].early.events, runId, 0), delivered))
    && (end == StillPolling ==> iterations == |polls|)
    && (forall k :: 0 <= k < iterations - 1 ==> !Finished(polls[k].early, runId))
    && (end == StillPolling ==> forall k :: 0 <= k < |polls| ==> !Finished(polls[k].early, runId))
  }

  predicate IsPrefix(a: seq<StoredEvent>, b: seq<StoredEvent>)
  {
    |a| <= |b| && b[..|a|] == a
  }

  /** The run's events in a table are a prefix of its events in any later table. */
  lemma RunEventsGrow(a: seq<StoredEvent>, b: seq<StoredEvent>, runId: string)
    requires |a| <= |b| && b[..|a|] == a
    ensures IsPrefix(RunEvents(a, runId, 0), RunEvents(b, runId, 0))
  {
    assert b == a + b[|a|..];
    RunEventsAppend(a, b[|a|..], runId, 0);
  }

  /** The stream generator with the status read moved before the fetch, so that the
      poll that sees the run finished still fetches and sends everything committed
      before that read. */
  method EventGeneratorFlushed(runId: string, first: StoreView, polls: seq<Poll>)
    returns (out: seq<Message>, end: StreamEnd, ghost delivered: seq<StoredEvent>, ghost iterations: nat)
    requires Timeline(first, polls)
    ensures runId !in first.runs <==> end == NotFound
    ensures end == NotFound ==> out == [ErrorMessage(NotFoundData)] && delivered == [] && iterations == 0
    ensures end != NotFound ==> StreamedFlushed(runId, polls, out, end, delivered, iterations)
  {
    if runId !in first.runs {
      out, end, delivered, iterations := [ErrorMessage(NotFoundData)], NotFound, [], 0;
      return;
    }
    out, end, delivered, iterations := FlushedPollLoop(runId, first, polls);
  }

  /** The corrected polling loop: read the run's status (the `early` read), fetch the
      run's events above the cursor (the `late` read) and send each, then stop if the
      status read saw the run completed or failed. */
  method FlushedPollLoop(runId: string, first: StoreView, polls: seq<Poll>)
    returns (out: seq<Message>, end: StreamEnd, ghost delivered: seq<StoredEvent>, ghost iterations: nat)
    requires Timeline(first, polls) && runId in first.runs
    ensures StreamedFlushed(runId, polls, out, end, delivered, iterations)
  {
    delivered := [];
    iterations := 0;
    out := [];
    var lastEventId: nat := 0;
    ghost var seen: seq<StoredEvent> := [];
    var k := 0;
    while true
      invariant 0 <= k <= |polls| && iterations == k
      invariant seen == FlushedBefore(polls, k)
      invariant delivered == RunEvents(seen, runId, 0) && out == Messages(delivered)
      invariant Covers(seen, runId, lastEventId)
      invariant forall j :: 0 <= j < k ==> !Finished(polls[j].early, runId)
      decreases |polls| - k
    {
      if k == |polls| {
        end := StillPolling;
        RunEventsSound(seen, runId, 0);
        RunEventsIncreasing(seen, runId, 0);
        return;
      }
      NextFlushedPoll(first, polls, k);
      var status := polls[k].early.runs[runId].status;
      var now := polls[k].late.events;
      out, delivered, lastEventId := FetchAndSend(runId, seen, now, lastEventId, out, delivered);
      seen := now;
      k := k + 1;
      iterations := k;
      if IsTerminal(status) {
        end := Closed;
        RunEventsSound(seen, runId, 0);
        RunEventsIncreasing(seen, runId, 0);
        RunEventsGrow(polls[k - 1].early.events, seen, runId);
        return;
      }
    }
  }
}
