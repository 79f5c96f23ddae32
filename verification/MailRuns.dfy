/** Any number of mail drainers, callbacks, requeues, message edits, generated writes and crashes,
    interleaved step by step (src/application/service/mail_queue_write_service.rs,
    src/application/service/message_edit_service.rs). */
module MailRuns {
  import opened Prelude
  import opened Events
  import opened Holdings
  import opened MailQueue

  type Drainer = Worker<Verdict, DrainOutcome>

  /** `letters`: what each drainer's latest claim handed out. `handed`: transport calls.
      `requeued`: returns to the queue, by a requeue or by a generated state move to outgoing.
      `lost`: claims or queue places that ended without a transport call (crash, refused headers, a
      verdict or a cancel on a queued row). */
  datatype System = System(
    rows: Mails, messages: Messages, workers: seq<Drainer>, letters: map<nat, map<Uuid, Letter>>,
    handed: multiset<Uuid>, requeued: multiset<Uuid>, lost: multiset<Uuid>)

  /** `Edit` is an author's edit; `Patch` and `Amend` are generated writes of a queue row's own columns
      and of a message, its removal included. */
  datatype Step =
    | Enqueue(id: Uuid, row: MailRow)
    | Claim(w: nat, ids: seq<Uuid>, now: int)
    | Refuse(w: nat)
    | HandOver(w: nat, verdict: Verdict)
    | Settle(w: nat)
    | Crash(w: nat)
    | Callback(id: Uuid, verdict: Verdict)
    | Requeue(id: Uuid)
    | Move(id: Uuid, to: MailState)
    | Edit(message: Uuid, subject: Option<string>, body: Option<string>)
    | Patch(id: Uuid, columns: Columns)
    | Amend(message: Uuid, text: Option<Text>)

  const IDLE: Drainer := Worker([], None, DrainOutcome(0, 0, 0))

  function Initial(workers: nat): System {
    System(map[], map[], Crew(IDLE, workers), map[], multiset{}, multiset{}, multiset{})
  }

  function Queued(rows: Mails, id: Uuid): nat {
    if id in rows && rows[id].state.Outgoing? then 1 else 0
  }

  const NO_LETTER := Letter(Columns(0, None, None, None, Err("not claimed")), Text(None, None, None))

  /** What the drainer holds for a row of its hand. */
  function Carried(s: System, w: nat, id: Uuid): Letter {
    if w in s.letters && id in s.letters[w] then s.letters[w][id] else NO_LETTER
  }

  /** The headers of the row a drainer turns to next, as claimed. */
  function HeadersOf(s: System, w: nat): Result<map<string, string>, string>
    requires w < |s.workers| && s.workers[w].hand != []
  {
    Carried(s, w, s.workers[w].hand[0]).columns.headers
  }

  /** An edit sets what it names and leaves the rest. */
  function Edited(messages: Messages, message: Uuid, subject: Option<string>, body: Option<string>): Messages {
    if message !in messages then messages
    else
      var was := messages[message];
      messages[message := was.(
        subject := if subject.Some? then subject else was.subject, body := if body.Some? then body else was.body)]
  }

  predicate Enabled(s: System, step: Step) {
    match step
    case Enqueue(id, row) => id !in s.rows && row.state.Outgoing?
    case Claim(w, ids, now) =>
      w < |s.workers| && s.workers[w].hand == [] && s.workers[w].verdict.None?
      && Distinct(ids) && forall id :: id in ids ==> id in Due(s.rows, now)
    case Refuse(w) =>
      w < |s.workers| && s.workers[w].hand != [] && s.workers[w].verdict.None?
      && HeadersOf(s, w).Err?
    case HandOver(w, _) =>
      w < |s.workers| && s.workers[w].hand != [] && s.workers[w].verdict.None?
      && HeadersOf(s, w).Ok?
    case Settle(w) => w < |s.workers| && s.workers[w].hand != [] && s.workers[w].verdict.Some?
    case Crash(w) => w < |s.workers|
    case Callback(_, _) => true
    case Requeue(_) => true
    case Move(id, to) => id in s.rows && Declared(s.rows[id].state, to)
    case Edit(_, _, _) => true
    case Patch(id, _) => id in s.rows
    case Amend(_, _) => true
  }

  /** A queue place taken away by a verdict is one the transport never saw. */
  function TakenFromQueue(rows: Mails, id: Uuid): multiset<Uuid> {
    if Queued(rows, id) == 1 then multiset{id} else multiset{}
  }

  function Apply(s: System, step: Step): System
    requires Enabled(s, step)
  {
    match step
    case Enqueue(id, row) => s.(rows := s.rows[id := row])
    case Claim(w, ids, _) =>
      var worker := s.workers[w];
      s.(rows := ClaimRows(s.rows, ids),
         workers := s.workers[w := worker.(
           hand := ids, total := worker.total.(claimed := worker.total.claimed + |ids|))],
         letters := s.letters[w := map id | id in ids && id in s.rows :: LetterOf(s.rows[id], s.messages)])
    case Refuse(w) =>
      var worker := s.workers[w];
      var id := worker.hand[0];
      var defect := HeadersOf(s, w).error;
      s.(rows := MarkFailedRow(s.rows, id, Unknown, Some(Refusal(defect))),
         workers := s.workers[w := worker.(
           hand := worker.hand[1..], total := worker.total.(failed := worker.total.failed + 1))],
         lost := s.lost + multiset{id} + TakenFromQueue(s.rows, id))
    case HandOver(w, verdict) =>
      var worker := s.workers[w];
      s.(workers := s.workers[w := worker.(verdict := Some(verdict))],
         handed := s.handed + multiset{worker.hand[0]})
    case Settle(w) =>
      var worker := s.workers[w];
      var id, verdict := worker.hand[0], worker.verdict.value;
      var total := if verdict.Ok? then worker.total.(sent := worker.total.sent + 1)
                   else worker.total.(failed := worker.total.failed + 1);
      s.(rows := SettleRow(s.rows, id, verdict),
         workers := s.workers[w := Worker(worker.hand[1..], None, total)],
         lost := s.lost + TakenFromQueue(s.rows, id))
    case Crash(w) =>
      s.(workers := s.workers[w := IDLE], lost := s.lost + multiset(Unsent(s.workers[w])))
    case Callback(id, verdict) =>
      s.(rows := SettleRow(s.rows, id, verdict), lost := s.lost + TakenFromQueue(s.rows, id))
    case Requeue(id) =>
      s.(rows := RequeueRow(s.rows, id),
         requeued := if id in s.rows && s.rows[id].state.Exception? then s.requeued + multiset{id} else s.requeued)
    case Move(id, to) =>
      s.(rows := s.rows[id := s.rows[id].(state := to)],
         requeued := if to.Outgoing? then s.requeued + multiset{id} else s.requeued,
         lost := s.lost + TakenFromQueue(s.rows, id))
    case Edit(message, subject, body) => s.(messages := Edited(s.messages, message, subject, body))
    case Patch(id, columns) => s.(rows := s.rows[id := s.rows[id].(columns := columns)])
    case Amend(message, text) =>
      s.(messages := if text.Some? then s.messages[message := text.value] else s.messages - {message})
  }

  function After(workers: nat, steps: seq<Step>): Option<System> {
    if steps == [] then Some(Initial(workers))
    else
      var before, step := After(workers, steps[..|steps| - 1]), steps[|steps| - 1];
      if before.Some? && Enabled(before.value, step) then Some(Apply(before.value, step)) else None
  }

  // ---- what every step keeps ----

  /** Every chance of a row to be sent is somewhere: in the queue, in one drainer's hands,
      used up by a transport call, or lost. A row gets one chance, and one more per requeue. */
  ghost predicate Conserved(s: System, id: Uuid) {
    Queued(s.rows, id) + Held(Hands(s.workers), id) + s.handed[id] + s.lost[id]
      == (if id in s.rows then 1 else 0) + s.requeued[id]
  }

  ghost predicate TotalsAdd(worker: Drainer) {
    worker.total.claimed == worker.total.sent + worker.total.failed + |worker.hand|
  }

  ghost predicate Inv(s: System) {
    && (forall id :: Conserved(s, id))
    && (forall w :: 0 <= w < |s.workers| ==> TotalsAdd(s.workers[w]))
    && (forall w :: 0 <= w < |s.workers| && s.workers[w].verdict.Some? ==> s.workers[w].hand != [])
    && (forall w, id :: 0 <= w < |s.workers| && id in s.workers[w].hand ==> id in s.rows)
  }

  lemma ClaimKeeps(s: System, step: Step, id: Uuid)
    requires step.Claim? && Enabled(s, step) && Conserved(s, id)
    ensures Conserved(Apply(s, step), id)
  {
    WorkerChange(s.workers, step.w, Apply(s, step).workers[step.w], id);
    DistinctCount(step.ids, id);
  }

  lemma RefuseKeeps(s: System, step: Step, id: Uuid)
    requires step.Refuse? && Enabled(s, step) && Conserved(s, id)
    ensures Conserved(Apply(s, step), id)
  {
    var worker := s.workers[step.w];
    WorkerChange(s.workers, step.w, Apply(s, step).workers[step.w], id);
    HeadAndRest(worker.hand, id);
    FailureTakesThePlace(s.rows, worker.hand[0], Some(Refusal(HeadersOf(s, step.w).error)), id);
  }

  /** A failed row is not in the queue; a place it had there is on record as taken. */
  lemma FailureTakesThePlace(rows: Mails, failed: Uuid, reason: Option<string>, id: Uuid)
    ensures Queued(MarkFailedRow(rows, failed, Unknown, reason), id) + TakenFromQueue(rows, failed)[id]
      == Queued(rows, id)
    ensures id in MarkFailedRow(rows, failed, Unknown, reason) <==> id in rows
  {
  }

  lemma HandOverKeeps(s: System, step: Step, id: Uuid)
    requires step.HandOver? && Enabled(s, step) && Conserved(s, id)
    ensures Conserved(Apply(s, step), id)
  {
    var worker := s.workers[step.w];
    WorkerChange(s.workers, step.w, worker.(verdict := Some(step.verdict)), id);
    HeadAndRest(worker.hand, id);
  }

  lemma SettleKeeps(s: System, step: Step, id: Uuid)
    requires step.Settle? && Enabled(s, step) && Conserved(s, id)
    ensures Conserved(Apply(s, step), id)
  {
    var worker := s.workers[step.w];
    WorkerChange(s.workers, step.w, Apply(s, step).workers[step.w], id);
    VerdictTakesThePlace(s.rows, worker.hand[0], worker.verdict.value, id);
  }

  /** A settled row is not in the queue; a place it had there is on record as taken. */
  lemma VerdictTakesThePlace(rows: Mails, settled: Uuid, verdict: Verdict, id: Uuid)
    ensures Queued(SettleRow(rows, settled, verdict), id) + TakenFromQueue(rows, settled)[id] == Queued(rows, id)
    ensures id in SettleRow(rows, settled, verdict) <==> id in rows
  {
  }

  lemma CrashKeeps(s: System, step: Step, id: Uuid)
    requires step.Crash? && Enabled(s, step) && Conserved(s, id)
    ensures Conserved(Apply(s, step), id)
  {
    WorkerChange(s.workers, step.w, IDLE, id);
  }

  lemma CallbackKeeps(s: System, step: Step, id: Uuid)
    requires step.Callback? && Enabled(s, step) && Conserved(s, id)
    ensures Conserved(Apply(s, step), id)
  {
  }

  lemma MoveKeeps(s: System, step: Step, id: Uuid)
    requires step.Move? && Enabled(s, step) && Conserved(s, id)
    ensures Conserved(Apply(s, step), id)
  {
  }

  lemma StepKeepsConserved(s: System, step: Step, id: Uuid)
    requires Enabled(s, step) && Conserved(s, id)
    ensures Conserved(Apply(s, step), id)
  {
    match step
    case Claim(_, _, _) => ClaimKeeps(s, step, id);
    case Refuse(_) => RefuseKeeps(s, step, id);
    case HandOver(_, _) => HandOverKeeps(s, step, id);
    case Settle(_) => SettleKeeps(s, step, id);
    case Crash(_) => CrashKeeps(s, step, id);
    case Callback(_, _) => CallbackKeeps(s, step, id);
    case Move(_, _) => MoveKeeps(s, step, id);
    case _ =>
  }

  lemma StepKeepsInv(s: System, step: Step)
    requires Enabled(s, step) && Inv(s)
    ensures Inv(Apply(s, step))
  {
    forall id
      ensures Conserved(Apply(s, step), id)
    {
      StepKeepsConserved(s, step, id);
    }
    RowsStay(s, step);
  }

  lemma RowsStay(s: System, step: Step)
    requires Enabled(s, step)
    ensures forall id :: id in s.rows ==> id in Apply(s, step).rows
  {
  }

  lemma InitialInv(workers: nat)
    ensures Inv(Initial(workers))
  {
    AllStartIdle(workers);
    forall id
      ensures Conserved(Initial(workers), id)
    {
      InitialConserved(workers, id);
    }
  }

  lemma AllStartIdle(workers: nat)
    ensures forall w :: 0 <= w < |Initial(workers).workers| ==> Initial(workers).workers[w] == IDLE
  {
  }

  lemma InitialConserved(workers: nat, id: Uuid)
    ensures Conserved(Initial(workers), id)
  {
    IdleHoldNothing(workers, IDLE, id);
  }

  lemma {:induction false} RunKeepsInv(workers: nat, steps: seq<Step>)
    requires After(workers, steps).Some?
    ensures Inv(After(workers, steps).value)
  {
    if steps == [] {
      InitialInv(workers);
    } else {
      RunKeepsInv(workers, steps[..|steps| - 1]);
      StepKeepsInv(After(workers, steps[..|steps| - 1]).value, steps[|steps| - 1]);
    }
  }

  // ---- guarantees ----

  /** However drainers, callbacks, requeues and crashes interleave, a row is handed to the
      transport at most once more than it was returned to the queue. */
  lemma HandedAtMostOncePerRequeue(workers: nat, steps: seq<Step>, s: System, id: Uuid)
    requires After(workers, steps) == Some(s)
    ensures s.handed[id] <= 1 + s.requeued[id]
  {
    RunKeepsInv(workers, steps);
    assert Conserved(s, id);
  }

  /** Nothing is skipped either: once a row has left the queue and every drainer's hands, it was
      handed over exactly as often as it had a chance to be, less the chances on record as lost. */
  lemma HandedExactlyWhenNothingLost(workers: nat, steps: seq<Step>, s: System, id: Uuid)
    requires After(workers, steps) == Some(s)
    requires id in s.rows && !s.rows[id].state.Outgoing?
    requires !InHand(s.workers, id)
    ensures s.handed[id] + s.lost[id] == 1 + s.requeued[id]
  {
    RunKeepsInv(workers, steps);
    assert Conserved(s, id);
    NotInHand(s.workers, id);
  }

  /** The steps that cost a row a transport call: its drainer crashes before the hand-over or refuses
      its headers, or it is settled or moved while it waits in the queue. */
  predicate Costs(s: System, step: Step, id: Uuid)
    requires Enabled(s, step)
  {
    match step
    case Crash(w) => id in Unsent(s.workers[w])
    case Refuse(w) => s.workers[w].hand[0] == id
    case Settle(w) => s.workers[w].hand[0] == id && Queued(s.rows, id) == 1
    case Callback(x, _) => x == id && Queued(s.rows, id) == 1
    case Move(x, _) => x == id && Queued(s.rows, id) == 1
    case _ => false
  }

  predicate Costless(workers: nat, steps: seq<Step>, id: Uuid)
    requires After(workers, steps).Some?
  {
    steps == []
    || (var init, last := steps[..|steps| - 1], steps[|steps| - 1];
        Costless(workers, init, id) && !Costs(After(workers, init).value, last, id))
  }

  lemma StepCosts(s: System, step: Step, id: Uuid)
    requires Enabled(s, step)
    ensures Apply(s, step).lost[id] >= s.lost[id]
    ensures Apply(s, step).lost[id] > s.lost[id] <==> Costs(s, step, id)
  {
  }

  lemma {:induction false} CostlessIffNothingLost(workers: nat, steps: seq<Step>, s: System, id: Uuid)
    requires After(workers, steps) == Some(s)
    ensures s.lost[id] == 0 <==> Costless(workers, steps, id)
  {
    if steps != [] {
      var init, last := steps[..|steps| - 1], steps[|steps| - 1];
      CostlessIffNothingLost(workers, init, After(workers, init).value, id);
      StepCosts(After(workers, init).value, last, id);
    }
  }

  /** The exact condition: a row at rest was handed to the transport once, and once more for each
      return to the queue, if and only if no step of the run cost it a call. */
  lemma HandedExactlyIffCostless(workers: nat, steps: seq<Step>, s: System, id: Uuid)
    requires After(workers, steps) == Some(s)
    requires id in s.rows && !s.rows[id].state.Outgoing?
    requires !InHand(s.workers, id)
    ensures s.handed[id] == 1 + s.requeued[id] <==> Costless(workers, steps, id)
  {
    HandedExactlyWhenNothingLost(workers, steps, s, id);
    CostlessIffNothingLost(workers, steps, s, id);
  }

  lemma OneMore(workers: nat, steps: seq<Step>, s: System, step: Step) returns (steps': seq<Step>, s': System)
    requires After(workers, steps) == Some(s) && Enabled(s, step)
    ensures steps' == steps + [step] && s' == Apply(s, step) && After(workers, steps') == Some(s')
  {
    steps', s' := steps + [step], Apply(s, step);
    assert steps'[..|steps|] == steps;
  }

  lemma ClaimedByTheOnlyDrainer(id: Uuid, row: MailRow) returns (run: seq<Step>, s: System)
    requires row.state.Outgoing? && Claimable(row, 0)
    ensures After(1, run) == Some(s)
    ensures s == System(map[id := Claimed(row)], map[], [Worker([id], None, DrainOutcome(1, 0, 0))],
                        map[0 := map[id := LetterOf(row, map[])]], multiset{}, multiset{}, multiset{})
  {
    run, s := OneMore(1, [], Initial(1), Enqueue(id, row));
    assert s.rows == map[id := row] && s.messages == map[];
    run, s := OneMore(1, run, s, Claim(0, [id], 0));
    assert s.rows == map[id := Claimed(row)];
    assert s.letters[0] == map[id := LetterOf(row, map[])];
  }

  /** A row claimed and handed over, its verdict waiting, when it is requeued. */
  lemma HandedThenRequeued(id: Uuid, row: MailRow) returns (run: seq<Step>, s: System)
    requires row.state.Outgoing? && row.columns.headers.Ok? && Claimable(row, 0)
    ensures After(1, run) == Some(s) && id in s.rows && s.rows[id].state.Outgoing?
    ensures s.workers == [Worker([id], Some(Ok(())), DrainOutcome(1, 0, 0))]
    ensures s.handed == multiset{id} == s.requeued
  {
    run, s := ClaimedByTheOnlyDrainer(id, row);
    assert Carried(s, 0, id).columns == row.columns;
    run, s := OneMore(1, run, s, HandOver(0, Ok(())));
    run, s := OneMore(1, run, s, Requeue(id));
  }

  /** The case a requeue in hand can come to: the drainer's late verdict settles the requeued row,
      which is then sent on record but was never sent again. */
  lemma RequeueInHandLosesItsTurn(id: Uuid, row: MailRow) returns (run: seq<Step>, s: System)
    requires row.state.Outgoing? && row.columns.headers.Ok? && Claimable(row, 0)
    ensures After(1, run) == Some(s) && s.requeued[id] == 1 && s.handed[id] == 1
    ensures id in s.rows && s.rows[id].state.Sent?
  {
    var before, t := HandedThenRequeued(id, row);
    run, s := OneMore(1, before, t, Settle(0));
  }

  /** A claimed row is in the queue again, or in a second drainer's hands, only by a requeue. */
  lemma ClaimsAreDisjoint(workers: nat, steps: seq<Step>, s: System, id: Uuid, v: nat, w: nat)
    requires After(workers, steps) == Some(s)
    requires v < |s.workers| && w < |s.workers| && v != w
    requires id in Unsent(s.workers[v])
    requires id in Unsent(s.workers[w]) || (id in s.rows && s.rows[id].state.Outgoing?)
    ensures s.requeued[id] >= 1
  {
    RunKeepsInv(workers, steps);
    assert Conserved(s, id);
    HeldByTwo(Hands(s.workers), v, w, id);
  }

  /** The reported totals add up whenever a drainer's hands are empty, which is when it returns. */
  lemma DrainTotalsAddUp(workers: nat, steps: seq<Step>, s: System, w: nat)
    requires After(workers, steps) == Some(s)
    requires w < |s.workers| && s.workers[w].hand == []
    ensures s.workers[w].total.claimed == s.workers[w].total.sent + s.workers[w].total.failed
  {
    RunKeepsInv(workers, steps);
    assert TotalsAdd(s.workers[w]);
  }

  lemma VerdictsNeverQueue(rows: Mails, settled: Uuid, id: Uuid)
    ensures forall v :: Queued(SettleRow(rows, settled, v), id) <= Queued(rows, id)
    ensures forall f, r :: Queued(MarkFailedRow(rows, settled, f, r), id) <= Queued(rows, id)
  {
  }

  /** Crash safety of one step: a crash leaves every row as it is, and only a requeue, a generated
      move to outgoing or the row's own creation ever makes a row claimable. */
  lemma OnlyRequeueMakesClaimable(s: System, step: Step, id: Uuid)
    requires Enabled(s, step)
    ensures step.Crash? ==> Apply(s, step).rows == s.rows
    ensures Queued(s.rows, id) == 0 && Queued(Apply(s, step).rows, id) == 1 ==>
      || (step == Requeue(id) && id in s.rows && s.rows[id].state.Exception?)
      || step == Move(id, Outgoing)
      || (step.Enqueue? && step.id == id)
  {
    match step
    case Refuse(w) => VerdictsNeverQueue(s.rows, s.workers[w].hand[0], id);
    case Settle(w) => VerdictsNeverQueue(s.rows, s.workers[w].hand[0], id);
    case Callback(x, _) => VerdictsNeverQueue(s.rows, x, id);
    case _ =>
  }
}
