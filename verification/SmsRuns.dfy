/** Any number of sms drainers, webhooks, sweeps, reaps, generated state moves and crashes,
    interleaved step by step (src/application/service/sms_write_service.rs, src/application/service/gc_service.rs). */
module SmsRuns {
  import opened Prelude
  import opened Events
  import opened Holdings
  import opened SmsQueue

  type Drainer = Worker<Verdict, DrainOutcome>

  /** `minted`: every row ever enqueued. `handed`: provider calls. `sweeps`: sweep requeues.
      `lost`: chances that ended without a provider call (crash, or a state move made by hand). */
  datatype System = System(
    rows: SmsRows, trackers: Trackers, workers: seq<Drainer>, minted: set<Uuid>,
    handed: multiset<Uuid>, sweeps: multiset<Uuid>, lost: multiset<Uuid>)

  datatype Step =
    | Enqueue(id: Uuid)
    | Claim(w: nat, ids: seq<Uuid>)
    | HandOver(w: nat, verdict: Verdict)
    | Apply(w: nat)
    | Crash(w: nat)
    | Webhook(id: Uuid, late: LateVerdict)
    | Sweep(stuck: set<Uuid>)
    | Move(id: Uuid, to: SmsState)
    | Reap(expired: set<Uuid>)

  const NEW_ROW := SmsRow(Outgoing, None, None, None, false)
  const IDLE: Drainer := Worker([], None, DrainOutcome(0, 0, 0, 0, 0))

  function Initial(workers: nat): System {
    System(map[], map[], Crew(IDLE, workers), {}, multiset{}, multiset{}, multiset{})
  }

  function Queued(rows: SmsRows, id: Uuid): nat {
    if id in rows && rows[id].state.Outgoing? then 1 else 0
  }

  predicate Enabled(s: System, step: Step) {
    match step
    case Enqueue(id) => id !in s.minted
    case Claim(w, ids) =>
      w < |s.workers| && s.workers[w].hand == [] && s.workers[w].verdict.None?
      && Distinct(ids) && forall id :: id in ids ==> id in Due(s.rows)
    case HandOver(w, _) => w < |s.workers| && s.workers[w].hand != [] && s.workers[w].verdict.None?
    case Apply(w) => w < |s.workers| && s.workers[w].hand != [] && s.workers[w].verdict.Some?
    case Crash(w) => w < |s.workers|
    case Webhook(_, _) => true
    case Sweep(_) => true
    case Move(id, to) =>
      id in s.rows && to != s.rows[id].state && Accepts(s.rows[id], s.rows[id].(state := to))
    case Reap(_) => true
  }

  /** A queue place taken by a state move is one the provider never saw. */
  function TakenFromQueue(rows: SmsRows, id: Uuid): multiset<Uuid> {
    if Queued(rows, id) == 1 then multiset{id} else multiset{}
  }

  function Next(s: System, step: Step): System
    requires Enabled(s, step)
  {
    match step
    case Enqueue(id) =>
      s.(rows := s.rows[id := NEW_ROW], trackers := s.trackers[id := NProcess], minted := s.minted + {id})
    case Claim(w, ids) =>
      var worker := s.workers[w];
      s.(rows := ClaimRows(s.rows, ids),
         workers := s.workers[w := worker.(
           hand := ids, total := worker.total.(claimed := worker.total.claimed + |ids|))])
    case HandOver(w, verdict) =>
      s.(workers := s.workers[w := s.workers[w].(verdict := Some(verdict))],
         handed := s.handed + multiset{s.workers[w].hand[0]})
    case Apply(w) =>
      var worker := s.workers[w];
      var id, verdict := worker.hand[0], worker.verdict.value;
      s.(rows := ApplyRow(s.rows, id, verdict),
         trackers := Mirror(s.trackers, id, StatusOf(Target(verdict))),
         workers := s.workers[w := Worker(
           worker.hand[1..], None, worker.total.Count(Tally(InProcess(s.rows, id), verdict)))])
    case Crash(w) =>
      s.(workers := s.workers[w := IDLE], lost := s.lost + multiset(Unsent(s.workers[w])))
    case Webhook(id, late) =>
      s.(rows := AdvanceRow(s.rows, id, late), trackers := AdvanceTracker(s.rows, s.trackers, id, late))
    case Sweep(stuck) =>
      s.(rows := SweepRows(s.rows, stuck), sweeps := s.sweeps + multiset(Requeueable(s.rows, stuck)))
    case Move(id, to) =>
      s.(rows := s.rows[id := s.rows[id].(state := to)], lost := s.lost + TakenFromQueue(s.rows, id))
    case Reap(expired) => s.(rows := ReapRows(s.rows, expired))
  }

  function After(workers: nat, steps: seq<Step>): Option<System> {
    if steps == [] then Some(Initial(workers))
    else
      var before, step := After(workers, steps[..|steps| - 1]), steps[|steps| - 1];
      if before.Some? && Enabled(before.value, step) then Some(Next(before.value, step)) else None
  }

  // ---- what every step keeps ----

  /** A row gets one chance to be sent and one more if it was swept, and it is swept at most
      once; each chance is in the queue, in one drainer's hands, used up, or lost. */
  ghost predicate Conserved(s: System, id: Uuid) {
    && Queued(s.rows, id) + Held(Hands(s.workers), id) + s.handed[id] + s.lost[id]
      == (if id in s.minted then 1 else 0) + s.sweeps[id]
    && s.sweeps[id] <= 1
    && (id in s.rows ==> id in s.minted && s.sweeps[id] == if s.rows[id].swept then 1 else 0)
    && (id !in s.minted ==> s.sweeps[id] == 0)
  }

  ghost predicate TotalsAdd(worker: Drainer) {
    var t := worker.total;
    t.claimed == t.accepted + t.delivered + t.failed + t.replayed + |worker.hand|
  }

  ghost predicate WorkerOk(worker: Drainer) {
    TotalsAdd(worker) && (worker.verdict.Some? ==> worker.hand != [])
  }

  ghost predicate WorkersOk(workers: seq<Drainer>) {
    forall w :: 0 <= w < |workers| ==> WorkerOk(workers[w])
  }

  ghost predicate Inv(s: System) {
    (forall id :: Conserved(s, id)) && WorkersOk(s.workers)
  }

  lemma ClaimKeeps(s: System, step: Step, id: Uuid)
    requires step.Claim? && Enabled(s, step) && Conserved(s, id)
    ensures Conserved(Next(s, step), id)
  {
    WorkerChange(s.workers, step.w, Next(s, step).workers[step.w], id);
    DistinctCount(step.ids, id);
  }

  lemma HandOverKeeps(s: System, step: Step, id: Uuid)
    requires step.HandOver? && Enabled(s, step) && Conserved(s, id)
    ensures Conserved(Next(s, step), id)
  {
    var worker := s.workers[step.w];
    WorkerChange(s.workers, step.w, worker.(verdict := Some(step.verdict)), id);
    HeadAndRest(worker.hand, id);
  }

  lemma ApplyKeeps(s: System, step: Step, id: Uuid)
    requires step.Apply? && Enabled(s, step) && Conserved(s, id)
    ensures Conserved(Next(s, step), id)
  {
    var worker := s.workers[step.w];
    WorkerChange(s.workers, step.w, Next(s, step).workers[step.w], id);
    VerdictsNeverQueue(s.rows, worker.hand[0], worker.verdict.value, id);
  }

  lemma VerdictsNeverQueue(rows: SmsRows, settled: Uuid, verdict: Verdict, id: Uuid)
    ensures Queued(ApplyRow(rows, settled, verdict), id) == Queued(rows, id)
    ensures id in ApplyRow(rows, settled, verdict) <==> id in rows
    ensures id in rows ==> ApplyRow(rows, settled, verdict)[id].swept == rows[id].swept
  {
  }

  lemma CrashKeeps(s: System, step: Step, id: Uuid)
    requires step.Crash? && Enabled(s, step) && Conserved(s, id)
    ensures Conserved(Next(s, step), id)
  {
    WorkerChange(s.workers, step.w, IDLE, id);
  }

  lemma StepKeepsConserved(s: System, step: Step, id: Uuid)
    requires Enabled(s, step) && Conserved(s, id)
    ensures Conserved(Next(s, step), id)
  {
    match step
    case Claim(_, _) => ClaimKeeps(s, step, id);
    case HandOver(_, _) => HandOverKeeps(s, step, id);
    case Apply(_) => ApplyKeeps(s, step, id);
    case Crash(_) => CrashKeeps(s, step, id);
    case Sweep(_) => SweepKeeps(s, step, id);
    case Move(_, _) => MoveKeeps(s, step, id);
    case _ =>
  }

  lemma SweepKeeps(s: System, step: Step, id: Uuid)
    requires step.Sweep? && Enabled(s, step) && Conserved(s, id)
    ensures Conserved(Next(s, step), id)
  {
  }

  lemma MoveKeeps(s: System, step: Step, id: Uuid)
    requires step.Move? && Enabled(s, step) && Conserved(s, id)
    ensures Conserved(Next(s, step), id)
  {
  }

  lemma StepKeepsInv(s: System, step: Step)
    requires Enabled(s, step) && Inv(s)
    ensures Inv(Next(s, step))
  {
    forall id
      ensures Conserved(Next(s, step), id)
    {
      StepKeepsConserved(s, step, id);
    }
    StepKeepsWorkers(s, step);
  }

  lemma StepKeepsWorkers(s: System, step: Step)
    requires Enabled(s, step) && WorkersOk(s.workers)
    ensures WorkersOk(Next(s, step).workers)
  {
    forall w | 0 <= w < |s.workers|
      ensures WorkerOk(Next(s, step).workers[w])
    {
      StepKeepsWorker(s, step, w);
    }
  }

  lemma StepKeepsWorker(s: System, step: Step, w: nat)
    requires Enabled(s, step) && w < |s.workers| && WorkerOk(s.workers[w])
    ensures |Next(s, step).workers| == |s.workers| && WorkerOk(Next(s, step).workers[w])
  {
  }

  lemma InitialInv(workers: nat)
    ensures Inv(Initial(workers))
  {
    IdleAreOk(Initial(workers).workers);
    forall id
      ensures Conserved(Initial(workers), id)
    {
      InitialConserved(workers, id);
    }
  }

  lemma IdleAreOk(workers: seq<Drainer>)
    requires forall w :: 0 <= w < |workers| ==> workers[w] == IDLE
    ensures WorkersOk(workers)
  {
  }

  lemma InitialConserved(workers: nat, id: Uuid)
    ensures Conserved(Initial(workers), id)
  {
    IdleHoldNothing(workers, IDLE, id);
  }

  lemma {:induction false} RunKeepsInv(workers: nat, steps: seq<Step>)
    requires After(workers, steps).Some?
    ensures Inv(After(workers, steps).value)
  {
    if steps == [] {
      InitialInv(workers);
    } else {
      RunKeepsInv(workers, steps[..|steps| - 1]);
      StepKeepsInv(After(workers, steps[..|steps| - 1]).value, steps[|steps| - 1]);
    }
  }

  // ---- guarantees ----

  /** However everything interleaves, an sms is handed to the provider at most twice, and the
      second time only after its one sweep. */
  lemma HandedAtMostTwice(workers: nat, steps: seq<Step>, s: System, id: Uuid)
    requires After(workers, steps) == Some(s)
    ensures s.handed[id] <= 1 + s.sweeps[id] <= 2
    ensures id in s.rows && !s.rows[id].swept ==> s.handed[id] <= 1
  {
    RunKeepsInv(workers, steps);
    assert Conserved(s, id);
  }

  /** And it is handed over exactly as often as it had a chance, less the chances on record as
      lost, once it has left the queue and nobody holds it. */
  lemma HandedExactlyWhenNothingLost(workers: nat, steps: seq<Step>, s: System, id: Uuid)
    requires After(workers, steps) == Some(s)
    requires id in s.minted && Queued(s.rows, id) == 0 && Held(Hands(s.workers), id) == 0
    ensures s.handed[id] + s.lost[id] == 1 + s.sweeps[id]
  {
    RunKeepsInv(workers, steps);
    assert Conserved(s, id);
  }

  /** The steps that cost an sms a provider call: its drainer crashes before the hand-over, or it is
      moved while it waits in the queue. */
  predicate Costs(s: System, step: Step, id: Uuid)
    requires Enabled(s, step)
  {
    match step
    case Crash(w) => id in Unsent(s.workers[w])
    case Move(x, _) => x == id && Queued(s.rows, id) == 1
    case _ => false
  }

  predicate Costless(workers: nat, steps: seq<Step>, id: Uuid)
    requires After(workers, steps).Some?
  {
    steps == []
    || (var init, last := steps[..|steps| - 1], steps[|steps| - 1];
        Costless(workers, init, id) && !Costs(After(workers, init).value, last, id))
  }

  lemma StepCosts(s: System, step: Step, id: Uuid)
    requires Enabled(s, step)
    ensures Next(s, step).lost[id] >= s.lost[id]
    ensures Next(s, step).lost[id] > s.lost[id] <==> Costs(s, step, id)
  {
  }

  lemma {:induction false} CostlessIffNothingLost(workers: nat, steps: seq<Step>, s: System, id: Uuid)
    requires After(workers, steps) == Some(s)
    ensures s.lost[id] == 0 <==> Costless(workers, steps, id)
  {
    if steps != [] {
      var init, last := steps[..|steps| - 1], steps[|steps| - 1];
      CostlessIffNothingLost(workers, init, After(workers, init).value, id);
      StepCosts(After(workers, init).value, last, id);
    }
  }

  /** The exact condition, which webhooks, reaps and the sweep do not touch: an sms out of queue and
      hands was handed to the provider once, and once more if it was swept, if and only if no step
      of the run cost it a call. */
  lemma HandedExactlyIffCostless(workers: nat, steps: seq<Step>, s: System, id: Uuid)
    requires After(workers, steps) == Some(s)
    requires id in s.minted && Queued(s.rows, id) == 0 && Held(Hands(s.workers), id) == 0
    ensures s.handed[id] == 1 + s.sweeps[id] <==> Costless(workers, steps, id)
  {
    HandedExactlyWhenNothingLost(workers, steps, s, id);
    CostlessIffNothingLost(workers, steps, s, id);
  }

  lemma DrainTotalsAddUp(workers: nat, steps: seq<Step>, s: System, w: nat)
    requires After(workers, steps) == Some(s)
    requires w < |s.workers| && s.workers[w].hand == []
    ensures var total := s.workers[w].total;
      total.claimed == total.accepted + total.delivered + total.failed + total.replayed
  {
    RunKeepsInv(workers, steps);
    assert WorkerOk(s.workers[w]);
  }

  predicate Falls(s: System, s': System, id: Uuid) {
    id in s.rows && id in s'.rows && Rank(s'.rows[id].state) < Rank(s.rows[id].state)
  }

  /** One step lowers a row's rank only by sweeping it, from process back to outgoing. */
  lemma OnlyTheSweepLowersRank(s: System, step: Step, id: Uuid)
    requires Enabled(s, step) && Conserved(s, id)
    ensures Falls(s, Next(s, step), id) ==>
      step.Sweep? && id in Requeueable(s.rows, step.stuck) && s.rows[id].state.Process?
      && Next(s, step).rows[id].state.Outgoing?
    ensures Falls(s, Next(s, step), id) ==> Next(s, step).sweeps[id] == s.sweeps[id] + 1
    ensures Next(s, step).sweeps[id] >= s.sweeps[id]
  {
  }

  /** How often the rank of a row fell during a run. */
  ghost function FallsIn(workers: nat, steps: seq<Step>, id: Uuid): nat
    requires After(workers, steps).Some?
  {
    if steps == [] then 0
    else
      var init := steps[..|steps| - 1];
      FallsIn(workers, init, id)
        + if Falls(After(workers, init).value, After(workers, steps).value, id) then 1 else 0
  }

  lemma {:induction false} FallsAreSweeps(workers: nat, steps: seq<Step>, id: Uuid)
    requires After(workers, steps).Some?
    ensures FallsIn(workers, steps, id) <= After(workers, steps).value.sweeps[id]
  {
    if steps != [] {
      var init := steps[..|steps| - 1];
      FallsAreSweeps(workers, init, id);
      RunKeepsInv(workers, init);
      OnlyTheSweepLowersRank(After(workers, init).value, steps[|steps| - 1], id);
    }
  }

  /** Over a whole run the rank of a row falls at most once. */
  lemma RankFallsAtMostOnce(workers: nat, steps: seq<Step>, id: Uuid)
    requires After(workers, steps).Some?
    ensures FallsIn(workers, steps, id) <= 1
  {
    RunKeepsInv(workers, steps);
    assert Conserved(After(workers, steps).value, id);
    FallsAreSweeps(workers, steps, id);
  }

  /** A row that reached a terminal state keeps its whole content until it is reaped, however
      the run goes on. */
  lemma {:induction false} TerminalIsForEver(workers: nat, steps: seq<Step>, k: nat, id: Uuid)
    requires k <= |steps| && After(workers, steps).Some?
    ensures After(workers, steps[..k]).Some?
    ensures var s, s' := After(workers, steps[..k]).value, After(workers, steps).value;
      id in s.rows && Terminal(s.rows[id].state) ==> id in s.minted && (id in s'.rows ==> s'.rows[id] == s.rows[id])
  {
    if k == |steps| {
      assert steps[..k] == steps;
      RunKeepsInv(workers, steps);
      assert Conserved(After(workers, steps).value, id);
    } else {
      var init := steps[..|steps| - 1];
      TerminalIsForEver(workers, init, k, id);
      assert init[..k] == steps[..k];
      MintedStays(workers, init, k, id);
      TerminalStays(After(workers, init).value, steps[|steps| - 1], id);
      RunKeepsInv(workers, init);
      assert Conserved(After(workers, init).value, id);
    }
  }

  lemma {:induction false} MintedStays(workers: nat, steps: seq<Step>, k: nat, id: Uuid)
    requires k <= |steps| && After(workers, steps).Some?
    ensures After(workers, steps[..k]).Some?
    ensures id in After(workers, steps[..k]).value.minted ==> id in After(workers, steps).value.minted
  {
    if k == |steps| {
      assert steps[..k] == steps;
    } else {
      MintedStays(workers, steps[..|steps| - 1], k, id);
      assert steps[..|steps| - 1][..k] == steps[..k];
    }
  }

  lemma TerminalStays(s: System, step: Step, id: Uuid)
    requires Enabled(s, step)
    ensures id in s.rows && Terminal(s.rows[id].state) && id in s.minted && id in Next(s, step).rows ==>
      Next(s, step).rows[id] == s.rows[id]
    ensures id !in s.rows && id in s.minted ==> id !in Next(s, step).rows
  {
  }
}
