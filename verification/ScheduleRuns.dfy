/** Any number of dispatchers, each holding one transaction, with crashes between any two steps
    (src/application/service/schedule_write_service.rs). */
module ScheduleRuns {
  import opened Prelude
  import opened Events
  import opened Holdings
  import opened AuthorNotice

  /** The rows a dispatcher has locked in its open transaction; the first `done` were dispatched. */
  datatype Tx = Tx(claimed: seq<Uuid>, done: nat)

  /** `rows` is what is durable; `authors` has every row ever armed. Posts and failure paths commit on
      their own, at once: `told` counts the failure paths that reached the author, `rolledBack`
      the posts and failure paths whose dispatching transaction then never committed. */
  datatype System = System(
    rows: set<Uuid>, authors: map<Uuid, Uuid>, canceled: set<Uuid>, txs: seq<Tx>, board: Board,
    posts: multiset<Uuid>, failures: multiset<Uuid>, told: multiset<Uuid>, rolledBack: multiset<Uuid>)

  /** What successful posts and everybody else write to the board comes in by `Others`. */
  datatype Step =
    | Arm(id: Uuid, author: Uuid)
    | Others(board: Board)
    | Cancel(id: Uuid)
    | Begin(w: nat, ids: seq<Uuid>)
    | Dispatch(w: nat, ok: bool, carrier: Option<nat>, now: int)
    | Commit(w: nat)
    | Crash(w: nat)

  const NO_TX := Tx([], 0)

  function Initial(workers: nat): System {
    System({}, map[], {}, seq(workers, _ => NO_TX), Board([], []), multiset{}, multiset{}, multiset{}, multiset{})
  }

  function Claims(txs: seq<Tx>): seq<seq<Uuid>> {
    seq(|txs|, i requires 0 <= i < |txs| => txs[i].claimed)
  }

  function DoneIn(tx: Tx): seq<Uuid> { tx.claimed[..Min(tx.done, |tx.claimed|)] }

  function Dones(txs: seq<Tx>): seq<seq<Uuid>> {
    seq(|txs|, i requires 0 <= i < |txs| => DoneIn(txs[i]))
  }

  predicate Locked(s: System, id: Uuid) { exists w :: 0 <= w < |s.txs| && id in s.txs[w].claimed }

  function AuthorOf(s: System, id: Uuid): Uuid { if id in s.authors then s.authors[id] else 0 }

  /** The row a dispatcher turns to next. */
  function Turn(s: System, w: nat): Uuid
    requires w < |s.txs| && s.txs[w].done < |s.txs[w].claimed|
  {
    s.txs[w].claimed[s.txs[w].done]
  }

  /** Claims skip locked rows; a cancel waits for the lock. */
  ghost predicate Enabled(s: System, step: Step) {
    match step
    case Arm(id, _) => id !in s.authors
    case Others(board) => Sound(board)
    case Cancel(id) => id in s.rows && !Locked(s, id)
    case Begin(w, ids) =>
      w < |s.txs| && s.txs[w] == NO_TX && Distinct(ids) && forall id :: id in ids ==> id in s.rows && !Locked(s, id)
    case Dispatch(w, ok, carrier, _) =>
      w < |s.txs| && s.txs[w].done < |s.txs[w].claimed|
      && (!ok ==> CarrierIs(s.board, AuthorOf(s, Turn(s, w)), carrier))
    case Commit(w) => w < |s.txs| && s.txs[w].done == |s.txs[w].claimed|
    case Crash(w) => w < |s.txs|
  }

  ghost function Next(s: System, step: Step): System
    requires Enabled(s, step)
  {
    match step
    case Arm(id, author) => s.(rows := s.rows + {id}, authors := s.authors[id := author])
    case Others(board) => s.(board := board)
    case Cancel(id) => s.(rows := s.rows - {id}, canceled := s.canceled + {id})
    case Begin(w, ids) => s.(txs := s.txs[w := Tx(ids, 0)])
    case Dispatch(w, ok, carrier, now) =>
      var id := Turn(s, w);
      var next := s.(txs := s.txs[w := s.txs[w].(done := s.txs[w].done + 1)]);
      if ok then next.(posts := s.posts + multiset{id})
      else
        next.(failures := s.failures + multiset{id},
              board := AfterNotice(s.board, AuthorOf(s, id), carrier, now),
              told := if Tells(s.board, AuthorOf(s, id), carrier) then s.told + multiset{id} else s.told)
    case Commit(w) =>
      s.(rows := (set id | id in s.rows && id !in s.txs[w].claimed), txs := s.txs[w := NO_TX])
    case Crash(w) =>
      s.(txs := s.txs[w := NO_TX], rolledBack := s.rolledBack + multiset(DoneIn(s.txs[w])))
  }

  ghost function After(workers: nat, steps: seq<Step>): Option<System> {
    if steps == [] then Some(Initial(workers))
    else
      var before, step := After(workers, steps[..|steps| - 1]), steps[|steps| - 1];
      if before.Some? && Enabled(before.value, step) then Some(Next(before.value, step)) else None
  }

  /** Removed for good by a dispatch. */
  function Dispatched(s: System, id: Uuid): nat {
    if id in s.authors && id !in s.rows && id !in s.canceled then 1 else 0
  }

  /** A locked row is locked once and still durable; every post or failure path of a row belongs
      to its removal, to the open transaction holding it, or to a transaction that rolled back. */
  ghost predicate Conserved(s: System, id: Uuid) {
    && Held(Claims(s.txs), id) <= (if id in s.rows then 1 else 0)
    && s.posts[id] + s.failures[id] == Dispatched(s, id) + Held(Dones(s.txs), id) + s.rolledBack[id]
    && (id in s.rows ==> id in s.authors && id !in s.canceled)
    && (id in s.canceled ==> id in s.authors)
    && s.told[id] <= s.failures[id]
  }

  ghost predicate Inv(s: System) {
    && (forall id :: Conserved(s, id))
    && (forall w :: 0 <= w < |s.txs| ==> s.txs[w].done <= |s.txs[w].claimed|)
    && Sound(s.board)
  }

  lemma ClaimChange(txs: seq<Tx>, w: nat, tx: Tx, id: Uuid)
    requires w < |txs|
    ensures Held(Claims(txs[w := tx]), id) + multiset(txs[w].claimed)[id]
      == Held(Claims(txs), id) + multiset(tx.claimed)[id]
  {
    HeldUpdate(Claims(txs), w, tx.claimed, id);
    assert Claims(txs[w := tx]) == Claims(txs)[w := tx.claimed];
  }

  lemma DoneChange(txs: seq<Tx>, w: nat, tx: Tx, id: Uuid)
    requires w < |txs|
    ensures Held(Dones(txs[w := tx]), id) + multiset(DoneIn(txs[w]))[id]
      == Held(Dones(txs), id) + multiset(DoneIn(tx))[id]
  {
    HeldUpdate(Dones(txs), w, DoneIn(tx), id);
    assert Dones(txs[w := tx]) == Dones(txs)[w := DoneIn(tx)];
  }

  lemma TxChange(s: System, w: nat, tx: Tx, id: Uuid)
    requires w < |s.txs|
    ensures Held(Claims(s.txs[w := tx]), id) + multiset(s.txs[w].claimed)[id]
      == Held(Claims(s.txs), id) + multiset(tx.claimed)[id]
    ensures Held(Dones(s.txs[w := tx]), id) + multiset(DoneIn(s.txs[w]))[id]
      == Held(Dones(s.txs), id) + multiset(DoneIn(tx))[id]
  {
    ClaimChange(s.txs, w, tx, id);
    DoneChange(s.txs, w, tx, id);
  }

  lemma BeginKeeps(s: System, step: Step, id: Uuid)
    requires step.Begin? && Enabled(s, step) && Conserved(s, id)
    ensures Conserved(Next(s, step), id)
  {
    TxChange(s, step.w, Tx(step.ids, 0), id);
    DistinctCount(step.ids, id);
    assert DoneIn(Tx(step.ids, 0)) == [] == DoneIn(NO_TX);
    if id in step.ids {
      HeldByNobody(Claims(s.txs), id);
    }
  }

  lemma OneMoreDone(tx: Tx, id: Uuid)
    requires tx.done < |tx.claimed|
    ensures multiset(DoneIn(tx.(done := tx.done + 1)))[id]
         == multiset(DoneIn(tx))[id] + if id == tx.claimed[tx.done] then 1 else 0
  {
    assert DoneIn(tx.(done := tx.done + 1)) == DoneIn(tx) + [tx.claimed[tx.done]];
  }

  lemma DispatchKeeps(s: System, step: Step, id: Uuid)
    requires step.Dispatch? && Enabled(s, step) && Conserved(s, id)
    ensures Conserved(Next(s, step), id)
  {
    var tx := s.txs[step.w];
    TxChange(s, step.w, tx.(done := tx.done + 1), id);
    OneMoreDone(tx, id);
    DispatchCounts(s, step, id);
  }

  lemma DispatchCounts(s: System, step: Step, id: Uuid)
    requires step.Dispatch? && Enabled(s, step)
    ensures var s', turn := Next(s, step), if id == Turn(s, step.w) then 1 else 0;
      && s'.posts[id] + s'.failures[id] == s.posts[id] + s.failures[id] + turn
      && s'.told[id] - s.told[id] <= s'.failures[id] - s.failures[id]
      && Dispatched(s', id) == Dispatched(s, id) && s'.rolledBack == s.rolledBack
      && s'.rows == s.rows && s'.authors == s.authors && s'.canceled == s.canceled
      && s'.txs == s.txs[step.w := s.txs[step.w].(done := s.txs[step.w].done + 1)]
  {
  }

  lemma CommitKeeps(s: System, step: Step, id: Uuid)
    requires step.Commit? && Enabled(s, step) && Conserved(s, id)
    ensures Conserved(Next(s, step), id)
  {
    var tx := s.txs[step.w];
    TxChange(s, step.w, NO_TX, id);
    assert DoneIn(tx) == tx.claimed && DoneIn(NO_TX) == [];
    HeldByOne(Claims(s.txs), step.w, id);
    assert Claims(s.txs)[step.w] == tx.claimed;
  }

  lemma CrashKeeps(s: System, step: Step, id: Uuid)
    requires step.Crash? && Enabled(s, step) && Conserved(s, id)
    ensures Conserved(Next(s, step), id)
  {
    TxChange(s, step.w, NO_TX, id);
    assert DoneIn(NO_TX) == [];
  }

  lemma CancelKeeps(s: System, step: Step, id: Uuid)
    requires step.Cancel? && Enabled(s, step) && Conserved(s, id)
    ensures Conserved(Next(s, step), id)
  {
    if id == step.id {
      HeldByNobody(Claims(s.txs), id);
    }
  }

  lemma StepKeepsInv(s: System, step: Step)
    requires Enabled(s, step) && Inv(s)
    ensures Inv(Next(s, step))
  {
    forall id
      ensures Conserved(Next(s, step), id)
    {
      assert Conserved(s, id);
      match step
      case Arm(_, _) => assert Conserved(s, id);
      case Others(_) => assert Conserved(s, id);
      case Cancel(_) => CancelKeeps(s, step, id);
      case Begin(_, _) => BeginKeeps(s, step, id);
      case Dispatch(_, _, _, _) => DispatchKeeps(s, step, id);
      case Commit(_) => CommitKeeps(s, step, id);
      case Crash(_) => CrashKeeps(s, step, id);
    }
    if step.Dispatch? && !step.ok {
      NoticeKeepsSound(s.board, AuthorOf(s, Turn(s, step.w)), step.carrier, step.now);
    }
  }

  lemma InitialInv(workers: nat)
    ensures Inv(Initial(workers))
  {
    forall id
      ensures Conserved(Initial(workers), id)
    {
      NobodyHolds(workers, id);
      assert Claims(Initial(workers).txs) == Empty(workers) == Dones(Initial(workers).txs);
    }
  }

  lemma {:induction false} RunKeepsInv(workers: nat, steps: seq<Step>)
    requires After(workers, steps).Some?
    ensures Inv(After(workers, steps).value)
  {
    if steps == [] {
      InitialInv(workers);
    } else {
      RunKeepsInv(workers, steps[..|steps| - 1]);
      StepKeepsInv(After(workers, steps[..|steps| - 1]).value, steps[|steps| - 1]);
    }
  }

  // ---- guarantees ----

  /** No scheduled message goes undispatched: one that is gone without a cancel was posted, or its
      failure path was run, and it was dispatched exactly once more than it was rolled back. */
  lemma GoneWasDispatched(workers: nat, steps: seq<Step>, s: System, id: Uuid)
    requires After(workers, steps) == Some(s)
    requires id in s.authors && id !in s.rows && id !in s.canceled
    ensures s.posts[id] + s.failures[id] >= 1
    ensures (forall w :: 0 <= w < |s.txs| ==> id !in s.txs[w].claimed) ==>
      s.posts[id] + s.failures[id] == 1 + s.rolledBack[id]
  {
    RunKeepsInv(workers, steps);
    assert Conserved(s, id);
    if forall w :: 0 <= w < |s.txs| ==> id !in s.txs[w].claimed {
      HeldByNobody(Dones(s.txs), id);
    }
  }

  /** Each failed dispatch of the row found its author without a message on their own wall, or the
      latest such message without a notification for them. */
  ghost predicate AuthorReachable(workers: nat, steps: seq<Step>, id: Uuid)
    requires After(workers, steps).Some?
  {
    steps == []
    || (var init, last := steps[..|steps| - 1], steps[|steps| - 1];
        var s := After(workers, init).value;
        AuthorReachable(workers, init, id)
        && (last.Dispatch? && !last.ok && Turn(s, last.w) == id ==>
              (forall k :: !Own(s.board, AuthorOf(s, id), k))
              || (last.carrier.Some? && Notification(last.carrier.value, AuthorOf(s, id)) !in s.board.notifications)))
  }

  lemma {:induction false} ReachableAuthorsAreTold(workers: nat, steps: seq<Step>, s: System, id: Uuid)
    requires After(workers, steps) == Some(s)
    ensures AuthorReachable(workers, steps, id) <==> s.told[id] == s.failures[id]
  {
    if steps != [] {
      var init, last := steps[..|steps| - 1], steps[|steps| - 1];
      var before := After(workers, init).value;
      ReachableAuthorsAreTold(workers, init, before, id);
      RunKeepsInv(workers, init);
      assert Conserved(before, id);
      if last.Dispatch? && !last.ok && last.carrier.Some? {
        assert Own(before.board, AuthorOf(before, Turn(before, last.w)), last.carrier.value);
      }
    }
  }

  /** When nothing is silently lost. A message that is gone without a cancel was posted or its author
      told, if every failed dispatch of it found its author reachable; and only if, when it was
      dispatched just the once. */
  lemma NothingSilentlyLostIff(workers: nat, steps: seq<Step>, s: System, id: Uuid)
    requires After(workers, steps) == Some(s)
    requires id in s.authors && id !in s.rows && id !in s.canceled
    ensures AuthorReachable(workers, steps, id) ==> s.posts[id] + s.told[id] >= 1
    ensures s.rolledBack[id] == 0 && (forall w :: 0 <= w < |s.txs| ==> id !in s.txs[w].claimed) ==>
      (AuthorReachable(workers, steps, id) <==> s.posts[id] + s.told[id] >= 1)
  {
    ReachableAuthorsAreTold(workers, steps, s, id);
    GoneWasDispatched(workers, steps, s, id);
    RunKeepsInv(workers, steps);
    assert Conserved(s, id);
  }

  lemma OneMore(workers: nat, steps: seq<Step>, s: System, step: Step) returns (steps': seq<Step>, s': System)
    requires After(workers, steps) == Some(s) && Enabled(s, step)
    ensures steps' == steps + [step] && s' == Next(s, step) && After(workers, steps') == Some(s')
  {
    steps', s' := steps + [step], Next(s, step);
    assert steps'[..|steps|] == steps;
  }

  /** Two messages of an author who has written on their own wall, both failing in one batch: both are
      gone, neither was posted, and nobody was told of the second. */
  lemma SilentLossIsReachable(first: Uuid, second: Uuid, author: Uuid) returns (run: seq<Step>, s: System)
    requires first != second
    ensures After(1, run) == Some(s)
    ensures second in s.authors && second !in s.rows && second !in s.canceled
    ensures s.posts[second] == 0 && s.told[second] == 0 && s.told[first] == 1
  {
    run, s := FirstFailed(first, second, author);
    assert CarrierIs(s.board, author, Some(0)) && Turn(s, 0) == second && AuthorOf(s, second) == author;
    assert s.board.notifications == [Notification(0, author)];
    run, s := OneMore(1, run, s, Dispatch(0, false, Some(0), 1));
    assert s.txs == [Tx([first, second], 2)] && s.told == multiset{first} && s.posts == multiset{};
    run, s := OneMore(1, run, s, Commit(0));
  }

  lemma FirstFailed(first: Uuid, second: Uuid, author: Uuid) returns (run: seq<Step>, s: System)
    requires first != second
    ensures After(1, run) == Some(s) && s.rows == {first, second} && s.canceled == {}
    ensures s.authors == map[first := author, second := author] && s.txs == [Tx([first, second], 1)]
    ensures s.board == Board([Message(Some(author), Some(author), 0)], [Notification(0, author)])
    ensures s.posts == multiset{} && s.told == multiset{first}
  {
    run, s := BothClaimed(first, second, author);
    assert CarrierIs(s.board, author, Some(0)) && Turn(s, 0) == first && AuthorOf(s, first) == author;
    run, s := OneMore(1, run, s, Dispatch(0, false, Some(0), 1));
  }

  /** Two armed messages of one author with one message on their own wall, in one open dispatch. */
  lemma BothClaimed(first: Uuid, second: Uuid, author: Uuid) returns (run: seq<Step>, s: System)
    requires first != second
    ensures After(1, run) == Some(s)
    ensures s == System({first, second}, map[first := author, second := author], {}, [Tx([first, second], 0)],
                        Board([Message(Some(author), Some(author), 0)], []),
                        multiset{}, multiset{}, multiset{}, multiset{})
  {
    run, s := OneMore(1, [], Initial(1), Arm(first, author));
    run, s := OneMore(1, run, s, Arm(second, author));
    run, s := OneMore(1, run, s, Others(Board([Message(Some(author), Some(author), 0)], [])));
    assert s.txs == [NO_TX] && !Locked(s, first) && !Locked(s, second);
    run, s := OneMore(1, run, s, Begin(0, [first, second]));
  }

  /** A row is posted at most once, and once more for every dispatch whose transaction rolled back. */
  lemma PostedAtMostOncePerRollback(workers: nat, steps: seq<Step>, s: System, id: Uuid)
    requires After(workers, steps) == Some(s)
    ensures s.posts[id] + s.failures[id] <= 1 + s.rolledBack[id]
    ensures id in s.canceled ==> s.posts[id] + s.failures[id] <= s.rolledBack[id]
  {
    RunKeepsInv(workers, steps);
    assert Conserved(s, id);
    DonesWithinClaims(s.txs, id);
  }

  lemma {:induction false} DonesWithinClaims(txs: seq<Tx>, id: Uuid)
    ensures Held(Dones(txs), id) <= Held(Claims(txs), id)
  {
    if txs != [] {
      var n := |txs| - 1;
      DonesWithinClaims(txs[..n], id);
      assert Dones(txs)[..n] == Dones(txs[..n]) && Claims(txs)[..n] == Claims(txs[..n]);
      var tx := txs[n];
      var k := Min(tx.done, |tx.claimed|);
      assert tx.claimed == tx.claimed[..k] + tx.claimed[k..];
    }
  }

  /** Without a crash every armed message is dispatched at most once. */
  lemma {:induction false} NoCrashNoRollback(workers: nat, steps: seq<Step>)
    requires After(workers, steps).Some?
    requires forall step :: step in steps ==> !step.Crash?
    ensures After(workers, steps).value.rolledBack == multiset{}
  {
    if steps != [] {
      var init, last := steps[..|steps| - 1], steps[|steps| - 1];
      NoCrashNoRollback(workers, init);
      OnlyCrashesRollBack(After(workers, init).value, last);
    }
  }

  lemma OnlyCrashesRollBack(s: System, step: Step)
    requires Enabled(s, step) && !step.Crash?
    ensures Next(s, step).rolledBack == s.rolledBack
  {
  }

  lemma ExactlyOnceWithoutCrashes(workers: nat, steps: seq<Step>, s: System, id: Uuid)
    requires After(workers, steps) == Some(s)
    requires forall step :: step in steps ==> !step.Crash?
    ensures s.posts[id] + s.failures[id] <= 1
    ensures id in s.authors && id !in s.rows && id !in s.canceled ==> s.posts[id] + s.failures[id] == 1
  {
    NoCrashNoRollback(workers, steps);
    PostedAtMostOncePerRollback(workers, steps, s, id);
    if id in s.authors && id !in s.rows && id !in s.canceled {
      GoneWasDispatched(workers, steps, s, id);
    }
  }

  /** Two open transactions never hold the same row. */
  lemma ClaimsAreDisjoint(workers: nat, steps: seq<Step>, s: System, v: nat, w: nat, id: Uuid)
    requires After(workers, steps) == Some(s)
    requires v < |s.txs| && w < |s.txs| && v != w && id in s.txs[v].claimed
    ensures id !in s.txs[w].claimed && id in s.rows
  {
    RunKeepsInv(workers, steps);
    assert Conserved(s, id);
    HeldByTwo(Claims(s.txs), v, w, id);
    assert Claims(s.txs)[v] == s.txs[v].claimed && Claims(s.txs)[w] == s.txs[w].claimed;
  }
}
