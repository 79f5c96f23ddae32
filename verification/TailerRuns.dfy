/** Whole runs of the tailer: late commits, arbitrary gaps, failed polls, two clocks. */
module TailerRuns {
  import opened Prelude
  import opened Events
  import opened Registry
  import opened Tailer

  /** The application clock prunes; the database clock bounds the query; the query may fail. */
  datatype Clock = Clock(app: int, db: int, ok: bool)

  datatype Poll = Poll(clock: Clock, rows: seq<Row>)

  function PrunedBefore(polls: seq<Poll>, window: nat): Seen
    requires polls != []
    decreases |polls|, 0
  {
    Pruned(SeenAfter(polls[..|polls| - 1], window), polls[|polls| - 1].clock.app - window)
  }

  function SeenAfter(polls: seq<Poll>, window: nat): Seen
    decreases |polls|, 1
  {
    if polls == [] then map[]
    else
      var poll, pruned := polls[|polls| - 1], PrunedBefore(polls, window);
      if poll.clock.ok then Absorb(pruned, poll.rows) else pruned
  }

  /** What the last poll of the run published. */
  function Batch(polls: seq<Poll>, window: nat): seq<TailedEvent>
    requires polls != []
  {
    var poll := polls[|polls| - 1];
    if poll.clock.ok then Fresh(PrunedBefore(polls, window), poll.rows) else []
  }

  /** Everything the run published, in order. */
  function Log(polls: seq<Poll>, window: nat): seq<TailedEvent> {
    if polls == [] then [] else Log(polls[..|polls| - 1], window) + Batch(polls, window)
  }

  /** The replica's task: a fresh dedup map, then one pass per tick, failed or not. */
  method Tail(registry: RealtimeRegistry, polls: seq<Poll>, window: nat) returns (tailer: OutboxTailer)
    requires registry.Valid() && registry.pushed == [] && registry.broadcast == []
    modifies registry
    ensures registry.Valid()
    ensures tailer.seen == SeenAfter(polls, window)
    ensures registry.pushed == registry.broadcast == Log(polls, window)
  {
    tailer := new OutboxTailer(registry);
    for i := 0 to |polls|
      invariant registry.Valid() && fresh(tailer) && tailer.registry == registry
      invariant tailer.seen == SeenAfter(polls[..i], window)
      invariant registry.pushed == registry.broadcast == Log(polls[..i], window)
    {
      assert polls[..i + 1][..i] == polls[..i];
      var poll := polls[i];
      var fetched := if poll.clock.ok then Ok(poll.rows) else Err("query failed");
      var published := tailer.PollOnce(poll.clock.app, fetched, window);
    }
    assert polls[..|polls|] == polls;
  }

  function Clocks(polls: seq<Poll>): seq<Clock> {
    seq(|polls|, n requires 0 <= n < |polls| => polls[n].clock)
  }

  /** Each successful poll returned rows of the outbox inside its window. Rows may be
      missing (not committed yet, or gone) and may first show up at any later poll. */
  ghost predicate Observed(polls: seq<Poll>, outbox: map<Uuid, Row>, window: nat) {
    forall poll :: poll in polls ==> FromOutbox(poll, outbox, window)
  }

  ghost predicate FromOutbox(poll: Poll, outbox: map<Uuid, Row>, window: nat) {
    poll.clock.ok ==> forall r :: r in poll.rows ==>
      r.id in outbox && outbox[r.id] == r && r.occurredAt > poll.clock.db - window
  }

  /** No prune lies ahead of both query clocks of the successful polls around it. */
  ghost predicate SafeClocks(clocks: seq<Clock>) {
    forall i, k, j :: 0 <= i < k <= j < |clocks| ==> NotAhead(clocks, i, k, j)
  }

  ghost predicate NotAhead(clocks: seq<Clock>, i: nat, k: nat, j: nat)
    requires i < |clocks| && k < |clocks| && j < |clocks|
  {
    clocks[i].ok && clocks[j].ok ==> clocks[k].app <= Max(clocks[i].db, clocks[j].db)
  }

  /** The situation an operator would set up: time never runs backwards in the database, and
      the application clock is not ahead of it. */
  lemma SynchronisedClocksAreSafe(clocks: seq<Clock>)
    requires forall i, j :: 0 <= i < j < |clocks| ==> clocks[i].db <= clocks[j].db
    requires forall k :: 0 <= k < |clocks| ==> clocks[k].app <= clocks[k].db
    ensures SafeClocks(clocks)
  {
  }

  // ---- facts about one pass ----

  lemma {:induction false} AbsorbFacts(seen: Seen, rows: seq<Row>)
    ensures forall id :: id in Absorb(seen, rows) <==> id in seen || exists r :: r in rows && r.id == id
    ensures forall id :: id in seen ==> Absorb(seen, rows)[id] == seen[id]
    ensures forall id :: id in Absorb(seen, rows) && id !in seen ==>
      exists r :: r in rows && r.id == id && Absorb(seen, rows)[id] == r.occurredAt
  {
    if rows != [] {
      var init, row := rows[..|rows| - 1], rows[|rows| - 1];
      AbsorbFacts(seen, init);
      assert forall r :: r in rows <==> r in init || r == row;
    }
  }

  lemma {:induction false} FreshFacts(seen: Seen, rows: seq<Row>)
    ensures forall e :: e in Fresh(seen, rows) ==>
      e.id !in seen && e.id in Absorb(seen, rows) && exists r :: r in rows && ExtractEvent(r) == Some(e)
    ensures Distinct(Ids(Fresh(seen, rows)))
  {
    if rows != [] {
      var init, row := rows[..|rows| - 1], rows[|rows| - 1];
      FreshFacts(seen, init);
      AbsorbFacts(seen, init);
      assert forall r :: r in init ==> r in rows;
      assert row in rows;
    }
  }

  // ---- never twice ----

  lemma {:induction false} SeenMatchesOutbox(polls: seq<Poll>, outbox: map<Uuid, Row>, window: nat)
    requires Observed(polls, outbox, window)
    ensures forall id :: id in SeenAfter(polls, window) ==>
      id in outbox && SeenAfter(polls, window)[id] == outbox[id].occurredAt
  {
    if polls != [] {
      SeenMatchesOutbox(polls[..|polls| - 1], outbox, window);
      assert FromOutbox(polls[|polls| - 1], outbox, window);
      AbsorbFacts(PrunedBefore(polls, window), polls[|polls| - 1].rows);
    }
  }

  lemma {:induction false} PublishedComesFromOutbox(
      polls: seq<Poll>, outbox: map<Uuid, Row>, window: nat, e: TailedEvent)
    requires Observed(polls, outbox, window)
    requires e in Log(polls, window)
    ensures e.id in outbox && ExtractEvent(outbox[e.id]) == Some(e)
  {
    var init, last := polls[..|polls| - 1], polls[|polls| - 1];
    if e in Log(init, window) {
      PublishedComesFromOutbox(init, outbox, window, e);
    } else {
      FreshFacts(PrunedBefore(polls, window), last.rows);
      assert FromOutbox(last, outbox, window);
    }
  }

  /** The successful poll `i` could have published it, and since then it is still
      remembered or poll `k` pruned past it. */
  ghost predicate Accounted(polls: seq<Poll>, e: TailedEvent, window: nat, i: nat, k: nat) {
    && i < |polls| && polls[i].clock.ok && e.occurredAt > polls[i].clock.db - window
    && (e.id in SeenAfter(polls, window)
        || (i < k < |polls| && e.occurredAt <= polls[k].clock.app - window))
  }

  lemma {:induction false} PublishedIsAccounted(
      polls: seq<Poll>, outbox: map<Uuid, Row>, window: nat, e: TailedEvent) returns (i: nat, k: nat)
    requires Observed(polls, outbox, window)
    requires e in Log(polls, window)
    ensures e.id in outbox && e.occurredAt == outbox[e.id].occurredAt
    ensures Accounted(polls, e, window, i, k)
  {
    var last := |polls| - 1;
    var init := polls[..last];
    if e in Log(init, window) {
      i, k := PublishedIsAccounted(init, outbox, window, e);
      assert polls[i] == init[i] && (i < k < |init| ==> polls[k] == init[k]);
      if e.id in SeenAfter(init, window) {
        SeenMatchesOutbox(init, outbox, window);
        AbsorbFacts(PrunedBefore(polls, window), polls[last].rows);
        k := last;
      }
    } else {
      i, k := last, last;
      FreshFacts(PrunedBefore(polls, window), polls[last].rows);
      assert FromOutbox(polls[last], outbox, window);
    }
  }

  lemma LastPollDoesNotRepeat(
      polls: seq<Poll>, outbox: map<Uuid, Row>, window: nat, e: TailedEvent, f: TailedEvent)
    requires Observed(polls, outbox, window) && SafeClocks(Clocks(polls)) && polls != []
    requires e in Log(polls[..|polls| - 1], window) && f in Batch(polls, window)
    ensures e.id != f.id
  {
    var j := |polls| - 1;
    var init := polls[..j];
    var i, k := PublishedIsAccounted(init, outbox, window, e);
    if e.id in SeenAfter(init, window) {
      SeenMatchesOutbox(init, outbox, window);
      k := j;
    }
    assert NotAhead(Clocks(polls), i, k, j);
    FreshFacts(PrunedBefore(polls, window), polls[j].rows);
    assert FromOutbox(polls[j], outbox, window);
  }

  lemma SafePrefix(polls: seq<Poll>)
    requires polls != [] && SafeClocks(Clocks(polls))
    ensures SafeClocks(Clocks(polls[..|polls| - 1]))
  {
    var init := polls[..|polls| - 1];
    forall i, k, j | 0 <= i < k <= j < |init|
      ensures NotAhead(Clocks(init), i, k, j)
    {
      assert NotAhead(Clocks(polls), i, k, j);
    }
  }

  /** No outbox id is published twice, however late rows commit and whichever polls fail. */
  lemma {:induction false} NeverPublishedTwice(polls: seq<Poll>, outbox: map<Uuid, Row>, window: nat)
    requires Observed(polls, outbox, window)
    requires SafeClocks(Clocks(polls))
    ensures Distinct(Ids(Log(polls, window)))
  {
    if polls != [] {
      var init := polls[..|polls| - 1];
      var before, batch := Log(init, window), Batch(polls, window);
      SafePrefix(polls);
      NeverPublishedTwice(init, outbox, window);
      FreshFacts(PrunedBefore(polls, window), polls[|polls| - 1].rows);
      BatchIsNew(polls, outbox, window);
      DistinctConcat(Ids(before), Ids(batch));
      assert Ids(before + batch) == Ids(before) + Ids(batch);
    }
  }

  lemma BatchIsNew(polls: seq<Poll>, outbox: map<Uuid, Row>, window: nat)
    requires Observed(polls, outbox, window) && SafeClocks(Clocks(polls)) && polls != []
    ensures forall x :: x in Ids(Log(polls[..|polls| - 1], window)) ==> x !in Ids(Batch(polls, window))
  {
    var before, batch := Log(polls[..|polls| - 1], window), Batch(polls, window);
    forall m, n | 0 <= m < |before| && 0 <= n < |batch|
      ensures before[m].id != batch[n].id
    {
      LastPollDoesNotRepeat(polls, outbox, window, before[m], batch[n]);
    }
  }

  // ---- and only then ----

  /** The run in which one row is in the outbox from the start. */
  function OneRowRun(clocks: seq<Clock>, row: Row, window: nat): seq<Poll> {
    seq(|clocks|, n requires 0 <= n < |clocks| => OneRowPoll(clocks[n], row, window))
  }

  function OneRowPoll(clock: Clock, row: Row, window: nat): Poll {
    Poll(clock, if row.occurredAt > clock.db - window then [row] else [])
  }

  /** What one more poll does to a run that has only ever seen `row`. */
  lemma OneRowPass(init: seq<Poll>, clock: Clock, row: Row, window: nat)
    requires ExtractEvent(row).Some?
    requires row.id in SeenAfter(init, window) ==> SeenAfter(init, window)[row.id] == row.occurredAt
    ensures var run := init + [OneRowPoll(clock, row, window)];
      var kept := row.id in SeenAfter(init, window) && row.occurredAt > clock.app - window;
      var fetched := clock.ok && row.occurredAt > clock.db - window;
      && (row.id in SeenAfter(run, window) <==> kept || fetched)
      && (row.id in SeenAfter(run, window) ==> SeenAfter(run, window)[row.id] == row.occurredAt)
      && Log(run, window) == Log(init, window) + if fetched && !kept then [ExtractEvent(row).value] else []
  {
    var run := init + [OneRowPoll(clock, row, window)];
    assert run[..|run| - 1] == init;
    var pruned := PrunedBefore(run, window);
    assert [row][..0] == [];
    assert Absorb(pruned, []) == pruned && Fresh(pruned, []) == [];
  }

  /** Published by poll `i`, forgotten by poll `k`, fetched again by poll `j`. */
  lemma {:induction false} OneRowIsRepublished(
      clocks: seq<Clock>, row: Row, window: nat, i: nat, k: nat, j: nat, n: nat)
    requires i < k <= j < |clocks| && clocks[i].ok && clocks[j].ok && n <= |clocks|
    requires row.occurredAt > clocks[i].db - window && row.occurredAt > clocks[j].db - window
    requires row.occurredAt <= clocks[k].app - window
    requires ExtractEvent(row).Some?
    ensures Republishing(OneRowRun(clocks, row, window)[..n], row, window, i, k, j)
  {
    var whole := OneRowRun(clocks, row, window);
    if n == 0 {
      assert whole[..0] == [];
    } else {
      OneRowIsRepublished(clocks, row, window, i, k, j, n - 1);
      var init := whole[..n - 1];
      assert whole[..n] == init + [OneRowPoll(clocks[n - 1], row, window)];
      RepublishStep(init, clocks[n - 1], row, window, i, k, j);
    }
  }

  lemma RepublishStep(init: seq<Poll>, clock: Clock, row: Row, window: nat, i: nat, k: nat, j: nat)
    requires i < k <= j && Republishing(init, row, window, i, k, j)
    requires |init| == i || |init| == j ==> clock.ok && row.occurredAt > clock.db - window
    requires |init| == k ==> row.occurredAt <= clock.app - window
    ensures Republishing(init + [OneRowPoll(clock, row, window)], row, window, i, k, j)
  {
    OneRowPass(init, clock, row, window);
  }

  /** How far a run of one row has come. */
  ghost predicate Republishing(run: seq<Poll>, row: Row, window: nat, i: nat, k: nat, j: nat) {
    && OnlyThisRow(run, row, window)
    && (i < |run| ==> |Log(run, window)| >= 1)
    && (k < |run| && row.id in SeenAfter(run, window) ==> |Log(run, window)| >= 2)
    && (j < |run| ==> |Log(run, window)| >= 2)
  }

  ghost predicate OnlyThisRow(run: seq<Poll>, row: Row, window: nat) {
    var seen, log := SeenAfter(run, window), Log(run, window);
    && ExtractEvent(row).Some?
    && (forall m :: 0 <= m < |log| ==> log[m] == ExtractEvent(row).value)
    && (row.id in seen ==> seen[row.id] == row.occurredAt && |log| >= 1)
  }

  ghost predicate NeverTwiceUnder(clocks: seq<Clock>, window: nat) {
    forall polls, outbox :: Clocks(polls) == clocks && Observed(polls, outbox, window) ==>
      Distinct(Ids(Log(polls, window)))
  }

  const SAMPLE_PAYLOAD: Json := JObject(map[
    "channel" := JString("c"),
    "message" := JObject(map["type" := JString("t"), "payload" := JNull])])

  lemma UnsafeClocksRepublish(clocks: seq<Clock>, window: nat, i: nat, k: nat, j: nat)
    requires i < k <= j < |clocks| && !NotAhead(clocks, i, k, j)
    ensures !NeverTwiceUnder(clocks, window)
  {
    var row := Row(0, clocks[k].app - window, SAMPLE_PAYLOAD);
    assert ValidChannelKey("c");
    var polls := OneRowRun(clocks, row, window);
    OneRowIsRepublished(clocks, row, window, i, k, j, |clocks|);
    assert polls[..|clocks|] == polls;
    assert Clocks(polls) == clocks;
    var outbox := map[row.id := row];
    forall poll | poll in polls
      ensures FromOutbox(poll, outbox, window)
    {
      var n :| 0 <= n < |clocks| && poll == polls[n];
    }
    assert Observed(polls, outbox, window);
    var log := Log(polls, window);
    assert Ids(log)[0] == Ids(log)[1];
  }

  /** The exact clock condition: duplicates are impossible for every outbox if and only if
      no prune clock lies ahead of both query clocks around it. */
  lemma NeverTwiceIffSafeClocks(clocks: seq<Clock>, window: nat)
    ensures NeverTwiceUnder(clocks, window) <==> SafeClocks(clocks)
  {
    if SafeClocks(clocks) {
      forall polls, outbox | Clocks(polls) == clocks && Observed(polls, outbox, window)
        ensures Distinct(Ids(Log(polls, window)))
      {
        NeverPublishedTwice(polls, outbox, window);
      }
    } else {
      var i, k, j :| 0 <= i < k <= j < |clocks| && !NotAhead(clocks, i, k, j);
      UnsafeClocksRepublish(clocks, window, i, k, j);
    }
  }

  // ---- nothing visible is missed, nothing is kept for ever ----

  /** A well-formed row is published by the first successful poll that returns it,
      whatever the clocks and however out of order it committed. */
  lemma FirstVisiblePollPublishes(polls: seq<Poll>, window: nat, row: Row)
    requires polls != [] && polls[|polls| - 1].clock.ok && row in polls[|polls| - 1].rows
    requires forall k, r :: 0 <= k < |polls| - 1 && polls[k].clock.ok && r in polls[k].rows ==> r.id != row.id
    requires forall r :: r in polls[|polls| - 1].rows && r.id == row.id ==> r == row
    requires ExtractEvent(row).Some?
    ensures ExtractEvent(row).value in Batch(polls, window)
  {
    var init := polls[..|polls| - 1];
    UnfetchedIsUnseen(init, window, row.id);
    FreshContains(PrunedBefore(polls, window), polls[|polls| - 1].rows, row);
  }

  lemma {:induction false} UnfetchedIsUnseen(polls: seq<Poll>, window: nat, id: Uuid)
    requires forall k, r :: 0 <= k < |polls| && polls[k].clock.ok && r in polls[k].rows ==> r.id != id
    ensures id !in SeenAfter(polls, window)
  {
    if polls != [] {
      UnfetchedIsUnseen(polls[..|polls| - 1], window, id);
      AbsorbFacts(PrunedBefore(polls, window), polls[|polls| - 1].rows);
    }
  }

  lemma {:induction false} FreshContains(seen: Seen, rows: seq<Row>, row: Row)
    requires row in rows && row.id !in seen && ExtractEvent(row).Some?
    requires forall r :: r in rows && r.id == row.id ==> r == row
    ensures ExtractEvent(row).value in Fresh(seen, rows)
  {
    var init := rows[..|rows| - 1];
    if row in init {
      FreshContains(seen, init, row);
    } else {
      AbsorbFacts(seen, init);
      assert rows[|rows| - 1] == row;
    }
  }

  predicate ReturnedBy(polls: seq<Poll>, row: Row, k: int) {
    0 <= k < |polls| && polls[k].clock.ok && row in polls[k].rows
  }

  predicate Returned(polls: seq<Poll>, row: Row) { exists k :: 0 <= k < |polls| && ReturnedBy(polls, row, k) }

  /** Over whole runs: a well-formed row is published if and only if some successful poll returned
      it; and under safe clocks it is then published exactly once. */
  lemma PublishedIffReturned(polls: seq<Poll>, outbox: map<Uuid, Row>, window: nat, row: Row)
    requires Observed(polls, outbox, window) && row.id in outbox && outbox[row.id] == row
    requires ExtractEvent(row).Some?
    ensures ExtractEvent(row).value in Log(polls, window) <==> Returned(polls, row)
    ensures SafeClocks(Clocks(polls)) ==>
      multiset(Log(polls, window))[ExtractEvent(row).value] == if Returned(polls, row) then 1 else 0
  {
    PublishedIffReturnedAnyClocks(polls, outbox, window, row);
    if SafeClocks(Clocks(polls)) {
      NeverPublishedTwice(polls, outbox, window);
      DistinctIdsCount(Log(polls, window), ExtractEvent(row).value);
    }
  }

  lemma {:induction false} DistinctIdsCount(log: seq<TailedEvent>, e: TailedEvent)
    requires Distinct(Ids(log))
    ensures multiset(log)[e] == if e in log then 1 else 0
  {
    if log != [] {
      var init, last := log[..|log| - 1], log[|log| - 1];
      assert log == init + [last] && Ids(log) == Ids(init) + [last.id];
      DistinctIdsCount(init, e);
    }
  }

  lemma {:induction false} PublishedIffReturnedAnyClocks(
      polls: seq<Poll>, outbox: map<Uuid, Row>, window: nat, row: Row)
    requires Observed(polls, outbox, window) && row.id in outbox && outbox[row.id] == row
    requires ExtractEvent(row).Some?
    ensures ExtractEvent(row).value in Log(polls, window) <==> Returned(polls, row)
  {
    if polls != [] {
      var n, e := |polls| - 1, ExtractEvent(row).value;
      var init := polls[..n];
      PublishedIffReturnedAnyClocks(init, outbox, window, row);
      assert Returned(polls, row) <==> Returned(init, row) || ReturnedBy(polls, row, n) by {
        assert forall k :: ReturnedBy(init, row, k) <==> ReturnedBy(polls, row, k) && k < n;
      }
      assert FromOutbox(polls[n], outbox, window);
      if e in Batch(polls, window) {
        FreshFacts(PrunedBefore(polls, window), polls[n].rows);
        assert ReturnedBy(polls, row, n);
      }
      if ReturnedBy(polls, row, n) && e !in Log(init, window) {
        NotYetReturned(polls, outbox, window, row);
        FirstVisiblePollPublishes(polls, window, row);
      }
    }
  }

  lemma NotYetReturned(polls: seq<Poll>, outbox: map<Uuid, Row>, window: nat, row: Row)
    requires polls != [] && Observed(polls, outbox, window) && row.id in outbox && outbox[row.id] == row
    requires !Returned(polls[..|polls| - 1], row)
    ensures forall k, r :: 0 <= k < |polls| - 1 && polls[k].clock.ok && r in polls[k].rows ==> r.id != row.id
  {
    var init := polls[..|polls| - 1];
    assert forall k :: !ReturnedBy(init, row, k);
    forall k, r | 0 <= k < |polls| - 1 && polls[k].clock.ok && r in polls[k].rows
      ensures r.id != row.id
    {
      assert !ReturnedBy(init, row, k) && init[k] == polls[k];
      assert FromOutbox(polls[k], outbox, window);
    }
  }

  // ---- what the overlap covers ----

  /** A poll at database time `now` sees the row: it is committed, and still inside the window. */
  predicate Visible(row: Row, committed: int, now: int, window: nat) {
    committed <= now < row.occurredAt + window
  }

  /** Each successful poll returned the rows it could see, and only those. */
  ghost predicate Complete(polls: seq<Poll>, outbox: map<Uuid, Row>, commits: Uuid -> int, window: nat) {
    && (forall id :: id in outbox ==> outbox[id].id == id)
    && forall poll :: poll in polls ==> SeesAll(poll, outbox, commits, window)
  }

  ghost predicate SeesAll(poll: Poll, outbox: map<Uuid, Row>, commits: Uuid -> int, window: nat) {
    poll.clock.ok ==> forall r :: r in poll.rows <==>
      r.id in outbox && outbox[r.id] == r && Visible(r, commits(r.id), poll.clock.db, window)
  }

  predicate PolledIn(clocks: seq<Clock>, from: int, to: int) {
    exists k :: 0 <= k < |clocks| && clocks[k].ok && from <= clocks[k].db < to
  }

  /** The exact condition, checkable from the clocks alone: a well-formed row is published if and only
      if some successful poll fell between its commit and the end of its window. So a row whose
      commit took as long as the window is lost for certain. */
  lemma PublishedIffPolledInTime(
      polls: seq<Poll>, outbox: map<Uuid, Row>, commits: Uuid -> int, window: nat, row: Row)
    requires Complete(polls, outbox, commits, window) && row.id in outbox && outbox[row.id] == row
    requires ExtractEvent(row).Some?
    ensures ExtractEvent(row).value in Log(polls, window) <==>
      PolledIn(Clocks(polls), commits(row.id), row.occurredAt + window)
    ensures commits(row.id) >= row.occurredAt + window ==> ExtractEvent(row).value !in Log(polls, window)
  {
    forall poll | poll in polls
      ensures FromOutbox(poll, outbox, window)
    {
      assert SeesAll(poll, outbox, commits, window);
    }
    PublishedIffReturned(polls, outbox, window, row);
    ReturnedIffPolledIn(polls, outbox, commits, window, row);
  }

  lemma ReturnedIffPolledIn(
      polls: seq<Poll>, outbox: map<Uuid, Row>, commits: Uuid -> int, window: nat, row: Row)
    requires Complete(polls, outbox, commits, window) && row.id in outbox && outbox[row.id] == row
    ensures Returned(polls, row) <==> PolledIn(Clocks(polls), commits(row.id), row.occurredAt + window)
  {
    var clocks, from, to := Clocks(polls), commits(row.id), row.occurredAt + window;
    forall k | 0 <= k < |polls|
      ensures ReturnedBy(polls, row, k) <==> clocks[k].ok && from <= clocks[k].db < to
    {
      assert SeesAll(polls[k], outbox, commits, window);
    }
    if PolledIn(clocks, from, to) {
      var k :| 0 <= k < |clocks| && clocks[k].ok && from <= clocks[k].db < to;
      assert ReturnedBy(polls, row, k);
    }
  }

  /** Overlap can skip: any gap in the successful polls as long as the window loses a row, although
      it was committed the moment it was written. */
  lemma GapLosesARow(clocks: seq<Clock>, window: nat, t: int)
      returns (polls: seq<Poll>, row: Row, commits: Uuid -> int)
    requires !PolledIn(clocks, t, t + window)
    ensures Clocks(polls) == clocks && Complete(polls, map[row.id := row], commits, window)
    ensures commits(row.id) == row.occurredAt == t
    ensures ExtractEvent(row).Some? && ExtractEvent(row).value !in Log(polls, window)
  {
    row, commits := Row(0, t, SAMPLE_PAYLOAD), _ => t;
    assert ValidChannelKey("c");
    polls := seq(|clocks|, n requires 0 <= n < |clocks| => Poll(clocks[n], []));
    assert Clocks(polls) == clocks;
    forall poll | poll in polls
      ensures SeesAll(poll, map[row.id := row], commits, window)
    {
      var n :| 0 <= n < |clocks| && poll == polls[n];
    }
    PublishedIffPolledInTime(polls, map[row.id := row], commits, window, row);
  }

  function YoungerThan(outbox: map<Uuid, Row>, horizon: int): set<Uuid> {
    set id | id in outbox && outbox[id].occurredAt > horizon
  }

  /** The older of the prune horizon and the query horizon. */
  function Horizon(clock: Clock, window: nat): int {
    (if clock.app <= clock.db then clock.app else clock.db) - window
  }

  /** After a successful poll the dedup map lies between the rows that poll fetched and the
      outbox rows younger than the older of the two horizons, so its size is bounded. */
  lemma SeenIsTheWindow(polls: seq<Poll>, outbox: map<Uuid, Row>, window: nat)
    requires Observed(polls, outbox, window)
    requires polls != [] && polls[|polls| - 1].clock.ok
    ensures var last, keys := polls[|polls| - 1], SeenAfter(polls, window).Keys;
      var young := YoungerThan(outbox, Horizon(last.clock, window));
      && (set r | r in last.rows :: r.id) <= keys <= young
      && |keys| <= |young|
  {
    var last := polls[|polls| - 1];
    SeenMatchesOutbox(polls, outbox, window);
    assert FromOutbox(last, outbox, window);
    AbsorbFacts(PrunedBefore(polls, window), last.rows);
    var young := YoungerThan(outbox, Horizon(last.clock, window));
    assert SeenAfter(polls, window).Keys <= young;
    SubsetIsSmaller(SeenAfter(polls, window).Keys, young);
  }

  lemma {:induction false} SubsetIsSmaller<T>(a: set<T>, b: set<T>)
    requires a <= b
    ensures |a| <= |b|
  {
    if a != {} {
      var x :| x in a;
      SubsetIsSmaller(a - {x}, b - {x});
    }
  }
}
