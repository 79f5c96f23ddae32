/** The sms queue: guarded row steps, the drainer, the webhook seam and the stuck sweep
    (src/application/service/sms_write_service.rs, src/application/service/gc_service.rs,
    src/infrastructure/persistence/sms_queue_repository.rs). */
module SmsQueue {
  import opened Prelude
  import opened Events
  import opened Holdings

  datatype SmsState = Outgoing | Process | Pending | Sent | Error | Canceled

  datatype NotificationStatus = NReady | NProcess | NPending | NSent | NBounce | NException | NCanceled

  datatype SmsRow = SmsRow(
    state: SmsState, failureType: Option<string>, errorMessage: Option<string>, iapCode: Option<int>, swept: bool)

  /** Rows are addressed by their correlation uuid, which is unique. */
  type SmsRows = map<Uuid, SmsRow>
  type Trackers = map<Uuid, NotificationStatus>

  datatype SendOutcome = Processing | Accepted | Delivered
  datatype SendFailure = SendFailure(failureType: string, message: string, iapCode: Option<int>)
  type Verdict = Result<SendOutcome, SendFailure>

  datatype OutcomeApplied = CountAccepted | CountDelivered | CountFailed | CountReplay

  datatype DrainOutcome = DrainOutcome(claimed: nat, accepted: nat, delivered: nat, failed: nat, replayed: nat) {
    function Count(applied: OutcomeApplied): DrainOutcome {
      match applied
      case CountAccepted => this.(accepted := accepted + 1)
      case CountDelivered => this.(delivered := delivered + 1)
      case CountFailed => this.(failed := failed + 1)
      case CountReplay => this.(replayed := replayed + 1)
    }

    function Settled(): nat { accepted + delivered + failed + replayed }
  }

  /** The one map from sms state to notification status. */
  function StatusOf(state: SmsState): NotificationStatus {
    match state
    case Canceled => NCanceled
    case Process => NProcess
    case Error => NException
    case Outgoing => NReady
    case Sent => NSent
    case Pending => NPending
  }

  function Rank(state: SmsState): nat {
    match state
    case Outgoing => 0
    case Process => 1
    case Pending => 2
    case Sent => 3
    case Error => 100
    case Canceled => 100
  }

  predicate Terminal(state: SmsState) { state.Sent? || state.Error? || state.Canceled? }

  // ---- the database guards ----

  /** The state-transition trigger. */
  predicate Declared(from: SmsState, to: SmsState) {
    (from, to) in {
      (Outgoing, Canceled), (Outgoing, Process),
      (Pending, Canceled), (Pending, Error), (Pending, Sent),
      (Process, Canceled), (Process, Error), (Process, Outgoing), (Process, Pending), (Process, Sent)}
  }

  /** Both triggers: a declared move, and no fall in rank except on the write that sets the
      sweep marker for the first time. */
  predicate Accepts(before: SmsRow, after: SmsRow) {
    after.state != before.state ==>
      && Declared(before.state, after.state)
      && (Rank(after.state) < Rank(before.state) ==> !before.swept && after.swept)
  }

  // ---- the guarded row steps ----

  function Due(rows: SmsRows): set<Uuid> {
    set id | id in rows && rows[id].state.Outgoing?
  }

  function ClaimRows(rows: SmsRows, ids: seq<Uuid>): SmsRows {
    map id | id in rows :: if id in ids then rows[id].(state := Process) else rows[id]
  }

  function Target(verdict: Verdict): SmsState {
    match verdict
    case Ok(Processing) => Process
    case Ok(Accepted) => Pending
    case Ok(Delivered) => Sent
    case Err(_) => Error
  }

  function Settle(row: SmsRow, verdict: Verdict): SmsRow {
    match verdict
    case Ok(_) => row.(state := Target(verdict), failureType := None, errorMessage := None, iapCode := None)
    case Err(f) =>
      row.(state := Error, failureType := Some(f.failureType), errorMessage := Some(f.message), iapCode := f.iapCode)
  }

  /** Only a row still in process takes the drainer's verdict. */
  predicate InProcess(rows: SmsRows, id: Uuid) { id in rows && rows[id].state.Process? }

  function ApplyRow(rows: SmsRows, id: Uuid, verdict: Verdict): SmsRows {
    if InProcess(rows, id) then rows[id := Settle(rows[id], verdict)] else rows
  }

  function Mirror(trackers: Trackers, id: Uuid, status: NotificationStatus): Trackers {
    if id in trackers then trackers[id := status] else trackers
  }

  function Tally(advanced: bool, verdict: Verdict): OutcomeApplied {
    if !advanced then CountReplay
    else
      match verdict
      case Ok(Processing) => CountReplay
      case Ok(Accepted) => CountAccepted
      case Ok(Delivered) => CountDelivered
      case Err(_) => CountFailed
  }

  /** What the late-verdict seam answers. */
  datatype Advance = Advanced | Replayed | UnknownSms | RefusedByDatabase

  datatype LateVerdict = LateVerdict(target: SmsState, failureType: Option<string>, errorMessage: Option<string>)

  function Late(row: SmsRow, late: LateVerdict): SmsRow {
    row.(state := late.target, failureType := late.failureType, errorMessage := late.errorMessage, iapCode := None)
  }

  /** The update matches rows in process or pending that are not there already; what it would
      write must still pass the database guards. */
  function AdvanceAnswer(rows: SmsRows, id: Uuid, late: LateVerdict): Advance {
    if id !in rows then UnknownSms
    else if !(rows[id].state.Process? || rows[id].state.Pending?) || rows[id].state == late.target then Replayed
    else if Accepts(rows[id], Late(rows[id], late)) then Advanced
    else RefusedByDatabase
  }

  function AdvanceRow(rows: SmsRows, id: Uuid, late: LateVerdict): SmsRows {
    if AdvanceAnswer(rows, id, late).Advanced? then rows[id := Late(rows[id], late)] else rows
  }

  function AdvanceTracker(rows: SmsRows, trackers: Trackers, id: Uuid, late: LateVerdict): Trackers {
    if AdvanceAnswer(rows, id, late).Advanced? then Mirror(trackers, id, StatusOf(late.target)) else trackers
  }

  /** Of the stuck rows, those a sweep may put back in the queue. */
  function Requeueable(rows: SmsRows, stuck: set<Uuid>): set<Uuid> {
    set id | id in stuck && InProcess(rows, id) && !rows[id].swept
  }

  function SweepRows(rows: SmsRows, stuck: set<Uuid>): SmsRows {
    map id | id in rows ::
      if id in Requeueable(rows, stuck) then rows[id].(state := Outgoing, swept := true) else rows[id]
  }

  /** Terminal rows past retention leave the table. */
  function ReapRows(rows: SmsRows, expired: set<Uuid>): SmsRows {
    map id | id in rows && !(id in expired && Terminal(rows[id].state)) :: rows[id]
  }

  // ---- what each step means ----

  /** Every step above writes only what the triggers accept. */
  lemma StepsPassTheTriggers(rows: SmsRows, id: Uuid, ids: seq<Uuid>, verdict: Verdict, late: LateVerdict,
      stuck: set<Uuid>)
    requires id in rows
    ensures (forall x :: x in ids ==> x in Due(rows)) ==> Accepts(rows[id], ClaimRows(rows, ids)[id])
    ensures Accepts(rows[id], ApplyRow(rows, id, verdict)[id])
    ensures Accepts(rows[id], AdvanceRow(rows, id, late)[id])
    ensures Accepts(rows[id], SweepRows(rows, stuck)[id])
  {
  }

  /** The drainer's verdict: no other row or tracker changes; exactly a row in process moves, to where
      the verdict points; the tracker moves there in any case; and a repeated verdict, or any
      verdict on a row no longer in process, changes no row. */
  lemma VerdictOnRow(rows: SmsRows, trackers: Trackers, id: Uuid, verdict: Verdict, again: Verdict)
    ensures var rows', trackers' := ApplyRow(rows, id, verdict), Mirror(trackers, id, StatusOf(Target(verdict)));
      && rows'.Keys == rows.Keys && trackers'.Keys == trackers.Keys
      && (forall x :: x in rows && x != id ==> rows'[x] == rows[x])
      && (forall x :: x in trackers && x != id ==> trackers'[x] == trackers[x])
      && (id in rows && rows[id].state.Process? ==> rows'[id].state == Target(verdict))
      && (id in rows ==> rows'[id].swept == rows[id].swept)
      && (id in rows && !rows[id].state.Process? ==> rows'[id] == rows[id])
      && (id in trackers ==> trackers'[id] == StatusOf(Target(verdict)))
      && ApplyRow(rows', id, verdict) == rows'
      && (verdict != Ok(Processing) ==> ApplyRow(rows', id, again) == rows')
  {
  }

  /** The late verdict of a webhook: no other row or tracker changes; a row moves exactly from process
      to anywhere else or from pending to an end state, and then its tracker moves with it;
      otherwise nothing changes; and a repetition changes nothing. */
  lemma LateVerdictOnRow(rows: SmsRows, trackers: Trackers, id: Uuid, late: LateVerdict)
    requires late.target in {Process, Pending, Sent, Error}
    ensures var rows', trackers' := AdvanceRow(rows, id, late), AdvanceTracker(rows, trackers, id, late);
      var moves := id in rows && ((rows[id].state.Process? && late.target != Process)
                                  || (rows[id].state.Pending? && late.target in {Sent, Error}));
      && rows'.Keys == rows.Keys && trackers'.Keys == trackers.Keys
      && (forall x :: x in rows && x != id ==> rows'[x] == rows[x])
      && (forall x :: x in trackers && x != id ==> trackers'[x] == trackers[x])
      && (AdvanceAnswer(rows, id, late).Advanced? <==> moves)
      && (moves ==> rows'[id].state == late.target && rows'[id].swept == rows[id].swept)
      && (moves && id in trackers ==> trackers'[id] == StatusOf(late.target))
      && (!moves ==> rows' == rows && trackers' == trackers)
      && AdvanceRow(rows', id, late) == rows' && AdvanceTracker(rows', trackers', id, late) == trackers'
  {
  }

  /** A verdict the row already took, repeated by the provider, changes nothing at all. */
  lemma RepeatedWebhookIsNoOp(rows: SmsRows, trackers: Trackers, id: Uuid, late: LateVerdict)
    requires AdvanceAnswer(rows, id, late).Advanced?
    ensures var rows', trackers' := AdvanceRow(rows, id, late), AdvanceTracker(rows, trackers, id, late);
      && AdvanceAnswer(rows', id, late).Replayed?
      && AdvanceRow(rows', id, late) == rows'
      && AdvanceTracker(rows', trackers', id, late) == trackers'
  {
  }

  /** Exactly when the seam's own guard is not enough: a pending row told `process` is matched
      by the update and stopped only by the database. */
  lemma DatabaseRefusesOnlyPendingToProcess(rows: SmsRows, id: Uuid, late: LateVerdict)
    requires late.target in {Process, Pending, Sent, Error}
    ensures AdvanceAnswer(rows, id, late).RefusedByDatabase? <==>
      id in rows && rows[id].state.Pending? && late.target.Process?
  {
  }

  predicate InStep(rows: SmsRows, trackers: Trackers, id: Uuid) {
    id in rows && id in trackers && trackers[id] == StatusOf(rows[id].state)
  }

  /** The webhook keeps a tracker that mirrors its row; the drainer, which writes the tracker even
      when the row did not take the verdict, leaves it mirroring the row if and only if the
      row took the verdict or already stood where the verdict points. */
  lemma TrackerInStepIff(rows: SmsRows, trackers: Trackers, id: Uuid, verdict: Verdict, late: LateVerdict)
    requires id in rows && id in trackers
    ensures InStep(rows, trackers, id) ==>
      InStep(AdvanceRow(rows, id, late), AdvanceTracker(rows, trackers, id, late), id)
    ensures InStep(ApplyRow(rows, id, verdict), Mirror(trackers, id, StatusOf(Target(verdict))), id)
      <==> InProcess(rows, id) || rows[id].state == Target(verdict)
  {
  }

  // ---- a whole drain ----

  /** The totals after the verdicts of these freshly claimed rows, in this order. */
  function Totals(start: DrainOutcome, ids: seq<Uuid>, port: Uuid -> Verdict): DrainOutcome {
    if ids == [] then start
    else Totals(start, ids[..|ids| - 1], port).Count(Tally(true, port(ids[|ids| - 1])))
  }

  lemma {:induction false} TotalsAddUp(start: DrainOutcome, ids: seq<Uuid>, port: Uuid -> Verdict)
    ensures Totals(start, ids, port).Settled() == start.Settled() + |ids|
    ensures Totals(start, ids, port).claimed == start.claimed
  {
    if ids != [] {
      TotalsAddUp(start, ids[..|ids| - 1], port);
    }
  }

  /** The rows once these claimed ones have taken their verdicts; the trackers once they mirror them. */
  function SettleRows(rows: SmsRows, ids: seq<Uuid>, port: Uuid -> Verdict): SmsRows {
    map id | id in rows :: if id in ids then Settle(rows[id], port(id)) else rows[id]
  }

  function MirrorRows(trackers: Trackers, ids: seq<Uuid>, port: Uuid -> Verdict): Trackers {
    map id | id in trackers :: if id in ids then StatusOf(Target(port(id))) else trackers[id]
  }

  lemma SettleStep(rows: SmsRows, trackers: Trackers, ids: seq<Uuid>, id: Uuid, port: Uuid -> Verdict)
    requires InProcess(rows, id) && id !in ids
    ensures InProcess(SettleRows(rows, ids, port), id)
    ensures SettleRows(rows, ids + [id], port) == ApplyRow(SettleRows(rows, ids, port), id, port(id))
    ensures MirrorRows(trackers, ids + [id], port)
      == Mirror(MirrorRows(trackers, ids, port), id, StatusOf(Target(port(id))))
  {
  }

  /** `ids` were drained from `before`, giving `after`; every other row and tracker is untouched. */
  ghost predicate DrainedFrom(before: SmsRows, after: SmsRows, was: Trackers, now: Trackers, ids: seq<Uuid>,
      port: Uuid -> Verdict) {
    && after.Keys == before.Keys && now.Keys == was.Keys
    && Distinct(ids)
    && (forall id :: id in ids ==> id in before && before[id].state.Outgoing?)
    && (forall id :: id in before ==>
          after[id] == if id in ids then Settle(before[id], port(id)) else before[id])
    && (forall id :: id in was ==>
          now[id] == if id in ids then StatusOf(Target(port(id))) else was[id])
  }

  lemma BatchExtends(before: SmsRows, start: SmsRows, was: Trackers, now: Trackers, seen: seq<Uuid>,
      batch: seq<Uuid>, port: Uuid -> Verdict)
    requires DrainedFrom(before, start, was, now, seen, port)
    requires Distinct(batch) && forall id :: id in batch ==> id in Due(start)
    ensures DrainedFrom(
      before, SettleRows(ClaimRows(start, batch), batch, port), was, MirrorRows(now, batch, port), seen + batch, port)
  {
    DistinctConcat(seen, batch);
    assert forall id :: id in seen + batch <==> id in seen || id in batch;
  }

  class SmsWriteService {
    var rows: SmsRows
    var trackers: Trackers

    constructor (rows: SmsRows, trackers: Trackers)
      ensures this.rows == rows && this.trackers == trackers
    {
      this.rows, this.trackers := rows, trackers;
    }

    method ClaimBatch(batch: nat) returns (ids: seq<Uuid>)
      modifies this`rows
      ensures Distinct(ids) && |ids| == Min(batch, |Due(old(rows))|)
      ensures forall id :: id in ids ==> id in Due(old(rows))
      ensures forall x, y :: x in ids && y in Due(old(rows)) && y !in ids ==> x <= y
      ensures rows == ClaimRows(old(rows), ids)
    {
      ids := TakeFirst(Due(rows), (id: Uuid) => id, batch);
      rows := ClaimRows(rows, ids);
    }

    /** One verdict: the row if it is still in process, the tracker in any case. */
    method ApplyOutcome(id: Uuid, verdict: Verdict) returns (applied: OutcomeApplied)
      modifies this
      ensures rows == ApplyRow(old(rows), id, verdict)
      ensures trackers == Mirror(old(trackers), id, StatusOf(Target(verdict)))
      ensures applied == Tally(InProcess(old(rows), id), verdict)
    {
      var advanced := InProcess(rows, id);
      if advanced { rows := rows[id := Settle(rows[id], verdict)]; }
      if id in trackers { trackers := trackers[id := StatusOf(Target(verdict))]; }
      applied := Tally(advanced, verdict);
    }

    /** The late-verdict seam; anything but an advance leaves rows and trackers alone. */
    method AdvanceState(id: Uuid, late: LateVerdict) returns (answer: Advance)
      modifies this
      ensures answer == AdvanceAnswer(old(rows), id, late)
      ensures rows == AdvanceRow(old(rows), id, late)
      ensures trackers == AdvanceTracker(old(rows), old(trackers), id, late)
    {
      if id !in rows { return UnknownSms; }
      var row := rows[id];
      if !(row.state.Process? || row.state.Pending?) || row.state == late.target { return Replayed; }
      if !Accepts(row, Late(row, late)) { return RefusedByDatabase; }
      rows := rows[id := Late(row, late)];
      if id in trackers { trackers := trackers[id := StatusOf(late.target)]; }
      return Advanced;
    }

    /** The stuck sweep: each stuck row goes back to the queue at most once in its life. */
    method SweepStuckProcess(stuck: set<Uuid>) returns (requeued: nat)
      modifies this`rows
      ensures rows == SweepRows(old(rows), stuck)
      ensures requeued == |Requeueable(old(rows), stuck)|
      ensures Requeueable(rows, stuck) == {}
    {
      if stuck == {} {
        assert SweepRows(rows, stuck) == rows;
        return 0;
      }
      requeued := |Requeueable(rows, stuck)|;
      rows := SweepRows(rows, stuck);
    }

    /** Hand each claimed row to the provider and apply its verdict, one row at a time. */
    method SendBatch(claimed: seq<Uuid>, port: Uuid -> Verdict, before: DrainOutcome)
        returns (total: DrainOutcome, sent: seq<Uuid>)
      requires Distinct(claimed) && forall id :: id in claimed ==> InProcess(rows, id)
      modifies this
      ensures rows == SettleRows(old(rows), claimed, port) && trackers == MirrorRows(old(trackers), claimed, port)
      ensures total == Totals(before, claimed, port) && sent == claimed
    {
      total, sent := before, [];
      for i := 0 to |claimed|
        invariant rows == SettleRows(old(rows), claimed[..i], port)
        invariant trackers == MirrorRows(old(trackers), claimed[..i], port)
        invariant total == Totals(before, claimed[..i], port) && sent == claimed[..i]
      {
        var id := claimed[i];
        assert claimed[..i + 1] == claimed[..i] + [id] && claimed[..i + 1][..i] == claimed[..i];
        assert id in claimed && id !in claimed[..i];
        SettleStep(old(rows), old(trackers), claimed[..i], id, port);
        sent := sent + [id];
        var applied := ApplyOutcome(id, port(id));
        total := total.Count(applied);
      }
      assert claimed[..|claimed|] == claimed;
    }

    method DrainPass(port: Uuid -> Verdict, batch: nat, before: DrainOutcome, seen: seq<Uuid>,
        ghost origin: SmsRows, ghost mirrors: Trackers)
        returns (claimed: seq<Uuid>, total: DrainOutcome, sent: seq<Uuid>)
      requires DrainedFrom(origin, rows, mirrors, trackers, seen, port)
      requires before.claimed == |seen| == before.Settled()
      modifies this
      ensures DrainedFrom(origin, rows, mirrors, trackers, sent, port)
      ensures sent == seen + claimed && total.claimed == |sent| == total.Settled()
      ensures |claimed| == Min(batch, |Due(old(rows))|)
      ensures claimed == [] ==> rows == old(rows)
    {
      ghost var start, trackersBefore := rows, trackers;
      claimed := ClaimBatch(batch);
      if claimed == [] {
        assert rows == start && seen + claimed == seen;
        return claimed, before, seen;
      }
      total := before.(claimed := before.claimed + |claimed|);
      TotalsAddUp(total, claimed, port);
      var more;
      total, more := SendBatch(claimed, port, total);
      sent := seen + more;
      BatchExtends(origin, start, mirrors, trackersBefore, seen, claimed, port);
    }

    /** The drainer run to its end, with no other writer: every queued row that was claimed went to
        the provider exactly once, took its verdict and its tracker, and an unlimited drain
        leaves nothing queued. */
    method ProcessQueue(port: Uuid -> Verdict, batch: nat, maxBatches: nat)
        returns (total: DrainOutcome, sent: seq<Uuid>, passes: nat)
      modifies this
      ensures DrainedFrom(old(rows), rows, old(trackers), trackers, sent, port)
      ensures total.claimed == |sent|
      ensures total.claimed == total.accepted + total.delivered + total.failed + total.replayed
      ensures maxBatches != 0 ==> passes <= maxBatches
      ensures batch > 0 && (maxBatches == 0 || passes < maxBatches) ==> Due(rows) == {}
    {
      total, sent, passes := DrainOutcome(0, 0, 0, 0, 0), [], 0;
      while true
        invariant DrainedFrom(old(rows), rows, old(trackers), trackers, sent, port)
        invariant total.claimed == |sent| == total.Settled()
        invariant maxBatches != 0 ==> passes < maxBatches
        decreases |rows.Keys| - |sent|
      {
        var claimed;
        claimed, total, sent := DrainPass(port, batch, total, sent, old(rows), old(trackers));
        DrainedAreRows(sent, rows.Keys);
        if claimed == [] { break; }
        passes := passes + 1;
        if maxBatches != 0 && passes >= maxBatches { break; }
      }
    }
  }
}
