/** The status pump: verdicts carried on to the linked notification, inside the transaction that
    applies them (src/infrastructure/persistence/message_pipeline_repository.rs,
    src/application/service/sms_write_service.rs, src/application/service/mail_queue_write_service.rs). */
module StatusPump {
  import opened Prelude
  import opened SmsQueue

  function NoteRank(s: NotificationStatus): nat {
    match s
    case NReady => 0
    case NProcess => 1
    case NPending => 2
    case NSent => 3
    case NBounce => 100
    case NException => 100
    case NCanceled => 100
  }

  predicate DeclaredMove(from: NotificationStatus, to: NotificationStatus) {
    (from, to) in {
      (NException, NBounce), (NException, NPending),
      (NPending, NBounce), (NPending, NCanceled), (NPending, NException), (NPending, NSent),
      (NProcess, NBounce), (NProcess, NCanceled), (NProcess, NException), (NProcess, NPending), (NProcess, NSent),
      (NReady, NCanceled), (NReady, NException), (NReady, NPending), (NReady, NProcess), (NReady, NSent)}
  }

  datatype PumpResult = Moved(status: NotificationStatus) | Ignored | WriteRefused

  /** The update matches only rows of a lower rank; the triggers then have their say. */
  function Pump(status: NotificationStatus, target: NotificationStatus): PumpResult {
    if NoteRank(target) <= NoteRank(status) then Ignored
    else if DeclaredMove(status, target) then Moved(target)
    else WriteRefused
  }

  /** The database refuses what the pump's own rank test lets through exactly when a delivered
      notification is told of a failure (or one not yet sent of a bounce, which no pump does). */
  lemma RefusedIff(status: NotificationStatus, target: NotificationStatus)
    ensures Pump(status, target).WriteRefused? <==>
      (status.NSent? && target in {NBounce, NException, NCanceled}) || (status.NReady? && target.NBounce?)
  {
  }

  // ---- the linked notifications of a mail ----

  /** All linked notifications, or nothing when one write is refused and the transaction fails. */
  function PumpAll(notes: seq<NotificationStatus>, target: NotificationStatus): Option<seq<NotificationStatus>> {
    if notes == [] then Some([])
    else
      var before, result := PumpAll(notes[..|notes| - 1], target), Pump(notes[|notes| - 1], target);
      if before.None? || result.WriteRefused? then None
      else Some(before.value + [if result.Moved? then result.status else notes[|notes| - 1]])
  }

  /** A mail verdict fails as a whole exactly when it is a failure and some linked notification is
      already delivered; otherwise each notification ends at the higher-ranked of what it was and the
      verdict, the older one on a tie. */
  lemma {:induction false} MailVerdictFailsIff(notes: seq<NotificationStatus>, sent: bool)
    ensures var target := if sent then NPending else NException;
      var after := PumpAll(notes, target);
      && (after.None? <==> !sent && NSent in notes)
      && (after.Some? ==> |after.value| == |notes| && forall i :: 0 <= i < |notes| ==>
            after.value[i] == if NoteRank(target) > NoteRank(notes[i]) then target else notes[i])
  {
    if notes != [] {
      var init, last := notes[..|notes| - 1], notes[|notes| - 1];
      assert notes == init + [last];
      MailVerdictFailsIff(init, sent);
      RefusedIff(last, if sent then NPending else NException);
    }
  }

  // ---- one sms, its tracker and its notification ----

  /** `hands`: claims of the row whose verdict is still to be applied. */
  datatype Sms = Sms(row: SmsRow, tracker: NotificationStatus, note: NotificationStatus, hands: nat)

  datatype Step =
    | Claim
    | Apply(verdict: Verdict)
    | Webhook(late: LateVerdict)
    | Crash
    | Sweep
    | Move(to: SmsState)
    | Mark(status: NotificationStatus)

  const MINTED := Sms(SmsRow(Outgoing, None, None, None, false), NProcess, NReady, 0)

  predicate Enabled(s: Sms, step: Step) {
    match step
    case Claim => s.row.state.Outgoing?
    case Apply(_) | Crash => s.hands > 0
    case Webhook(late) => late.target in {Process, Pending, Sent, Error}
    case Sweep => s.row.state.Process? && !s.row.swept
    case Move(to) => to != s.row.state && Accepts(s.row, s.row.(state := to))
    case Mark(status) => DeclaredMove(s.note, status) && NoteRank(status) >= NoteRank(s.note)
  }

  /** The pump's write, or the failure of the whole transaction. */
  function Pumped(s: Sms, target: NotificationStatus): Option<Sms> {
    match Pump(s.note, target)
    case Moved(status) => Some(s.(note := status))
    case Ignored => Some(s)
    case WriteRefused => None
  }

  /** The drainer's unit: the row if it is still in process, tracker and notification anyway. */
  function DrainerUnit(s: Sms, verdict: Verdict): Option<Sms> {
    var row := if s.row.state.Process? then Settle(s.row, verdict) else s.row;
    Pumped(s.(row := row, tracker := StatusOf(Target(verdict))), StatusOf(Target(verdict)))
  }

  /** The webhook's unit: row, tracker and notification, or none of them. */
  function WebhookUnit(s: Sms, late: LateVerdict): Option<Sms> {
    if !(s.row.state.Process? || s.row.state.Pending?) || s.row.state == late.target then Some(s)
    else if !Accepts(s.row, Late(s.row, late)) then None
    else Pumped(s.(row := Late(s.row, late), tracker := StatusOf(late.target)), StatusOf(late.target))
  }

  /** A failed transaction leaves row, tracker and notification as they were. A crash is any way a
      claimed row never gets its verdict: the drainer dies, or stops on the error of another row. A
      generated state move writes the row alone, or the notification alone. */
  function Next(s: Sms, step: Step): Sms
    requires Enabled(s, step)
  {
    match step
    case Claim => s.(row := s.row.(state := Process), hands := s.hands + 1)
    case Apply(verdict) =>
      var after := DrainerUnit(s, verdict);
      (if after.Some? then after.value else s).(hands := s.hands - 1)
    case Webhook(late) =>
      var after := WebhookUnit(s, late);
      if after.Some? then after.value else s
    case Crash => s.(hands := s.hands - 1)
    case Sweep => s.(row := s.row.(state := Outgoing, swept := true))
    case Move(to) => s.(row := s.row.(state := to))
    case Mark(status) => s.(note := status)
  }

  function Run(s: Sms, steps: seq<Step>): Option<Sms> {
    if steps == [] then Some(s)
    else
      var before, step := Run(s, steps[..|steps| - 1]), steps[|steps| - 1];
      if before.Some? && Enabled(before.value, step) then Some(Next(before.value, step)) else None
  }

  /** The drainer's transaction fails, whatever state the row is in, exactly when the verdict is a
      failure and the notification is already delivered; then nothing of the verdict is kept. */
  lemma DrainerUnitFailsIff(s: Sms, verdict: Verdict)
    requires s.hands > 0
    ensures DrainerUnit(s, verdict).None? <==> verdict.Err? && s.note.NSent?
    ensures DrainerUnit(s, verdict).None? ==> Next(s, Apply(verdict)) == s.(hands := s.hands - 1)
  {
  }

  predicate MarkedIn(steps: seq<Step>) { exists k :: 0 <= k < |steps| && steps[k].Mark? }

  lemma MarkedStep(steps: seq<Step>)
    requires steps != []
    ensures MarkedIn(steps) <==> MarkedIn(steps[..|steps| - 1]) || steps[|steps| - 1].Mark?
  {
    var init := steps[..|steps| - 1];
    if k :| 0 <= k < |steps| && steps[k].Mark? && k < |init| {
      assert init[k].Mark?;
    }
  }

  /** A notification never loses rank, over any interleaving of all the steps; once failed it stays
      failed, and unless it is moved by hand it never changes again. */
  lemma {:induction false} NotificationNeverFalls(s: Sms, steps: seq<Step>, t: Sms)
    requires Run(s, steps) == Some(t)
    ensures NoteRank(t.note) >= NoteRank(s.note)
    ensures NoteRank(s.note) == 100 && !MarkedIn(steps) ==> t.note == s.note
  {
    if steps != [] {
      MarkedStep(steps);
      NotificationNeverFalls(s, steps[..|steps| - 1], Run(s, steps[..|steps| - 1]).value);
      NextNeverFalls(Run(s, steps[..|steps| - 1]).value, steps[|steps| - 1]);
    }
  }

  lemma NextNeverFalls(s: Sms, step: Step)
    requires Enabled(s, step)
    ensures NoteRank(Next(s, step).note) >= NoteRank(s.note)
    ensures NoteRank(s.note) == 100 && !step.Mark? ==> Next(s, step).note == s.note
  {
  }

  /** Row, tracker and notification say the same. */
  predicate InLockstep(s: Sms) { s.tracker == s.note == StatusOf(s.row.state) }

  /** A row in process takes its verdict, and all three then say the same, if and only if the
      notification stood below the verdict and was not delivered before a failure, or stood there
      already. A fresh notification always does. */
  lemma VerdictBringsLockstepIff(s: Sms, verdict: Verdict)
    requires Enabled(s, Apply(verdict)) && s.row.state.Process?
    ensures var status, after := StatusOf(Target(verdict)), Next(s, Apply(verdict));
      InLockstep(after) && after.row.state == Target(verdict) <==>
        s.note == status || (NoteRank(s.note) < NoteRank(status) && !(s.note.NSent? && verdict.Err?))
    ensures s.note.NReady? ==> InLockstep(Next(s, Apply(verdict)))
  {
    RefusedIff(s.note, StatusOf(Target(verdict)));
  }

  lemma RunStep(s: Sms, steps: seq<Step>, t: Sms, step: Step) returns (steps': seq<Step>, t': Sms)
    requires Run(s, steps) == Some(t) && Enabled(t, step)
    ensures steps' == steps + [step] && t' == Next(t, step) && Run(s, steps') == Some(t')
  {
    steps', t' := steps + [step], Next(t, step);
    assert steps'[..|steps|] == steps;
  }

  const REQUEUED := MINTED.row.(swept := true)

  /** A late answer to the first attempt, after the sweep, marks the notification delivered while
      the row waits for its second attempt. */
  lemma StaleDeliveryIsReachable() returns (run: seq<Step>, s: Sms)
    ensures Run(MINTED, run) == Some(s) && s == Sms(REQUEUED.(state := Process), NSent, NSent, 1)
  {
    run, s := RunStep(MINTED, [], MINTED, Claim);
    assert s == Sms(MINTED.row.(state := Process), NProcess, NReady, 1);
    run, s := RunStep(MINTED, run, s, Sweep);
    assert s == Sms(REQUEUED, NProcess, NReady, 1);
    run, s := RunStep(MINTED, run, s, Apply(Ok(Delivered)));
    assert s == Sms(REQUEUED, NSent, NSent, 0);
    run, s := RunStep(MINTED, run, s, Claim);
  }

  /** In process for good, as far as the queue goes: no verdict to come, and no second sweep. */
  predicate Stuck(s: Sms) { s.row.state.Process? && s.row.swept && s.hands == 0 }

  /** A stuck row whose notification is delivered. */
  predicate Stranded(s: Sms) { Stuck(s) && s.note.NSent? }

  /** An answer to that second attempt that is a failure, which is refused, or a mere `processing`,
      which changes no state, strands the row; so does a second crash. */
  lemma StrandedRowIsReachable(last: Step) returns (run: seq<Step>, s: Sms)
    requires last.Crash? || (last.Apply? && (last.verdict.Err? || last.verdict == Ok(Processing)))
    ensures Run(MINTED, run) == Some(s) && Stranded(s)
    ensures run != [] && run[|run| - 1] == last
  {
    var before, t := StaleDeliveryIsReachable();
    if last.Apply? {
      DrainerUnitFailsIff(t, last.verdict);
    }
    run, s := RunStep(MINTED, before, t, last);
  }

  /** Two crashes, one on each attempt, with the sweep between them: stuck, and never notified. */
  lemma StuckByCrashesIsReachable() returns (run: seq<Step>, s: Sms)
    ensures Run(MINTED, run) == Some(s) && Stuck(s) && s.note.NReady?
    ensures run == [Claim, Crash, Sweep, Claim, Crash]
  {
    run, s := RunStep(MINTED, [], MINTED, Claim);
    assert s == Sms(MINTED.row.(state := Process), NProcess, NReady, 1);
    run, s := RunStep(MINTED, run, s, Crash);
    assert s == Sms(MINTED.row.(state := Process), NProcess, NReady, 0);
    run, s := RunStep(MINTED, run, s, Sweep);
    assert s == Sms(REQUEUED, NProcess, NReady, 0);
    run, s := RunStep(MINTED, run, s, Claim);
    assert s == Sms(REQUEUED.(state := Process), NProcess, NReady, 1);
    run, s := RunStep(MINTED, run, s, Crash);
  }

  // ---- the exact step, and the exact runs ----

  /** The last verdict to come for a swept row in process is a mere `processing`, or a failure that
      a delivered notification has refused, or never comes; or a swept row with no verdict to come
      is put in process by hand. */
  predicate Sticks(s: Sms, step: Step) {
    && s.row.swept
    && match step
       case Apply(v) => s.row.state.Process? && s.hands == 1 && (v == Ok(Processing) || (v.Err? && s.note.NSent?))
       case Crash => s.row.state.Process? && s.hands == 1
       case Move(to) => s.row.state.Outgoing? && s.hands == 0 && to.Process?
       case _ => false
  }

  /** The exact step at which a row gets stuck. */
  lemma StuckNextIff(s: Sms, step: Step)
    requires Enabled(s, step) && !Stuck(s)
    ensures Stuck(Next(s, step)) <==> Sticks(s, step)
  {
  }

  /** A row gets stuck under a delivered notification, or a stuck row's notification is moved to
      delivered by hand. */
  predicate Strands(s: Sms, step: Step) {
    (Sticks(s, step) && s.note.NSent?) || (Stuck(s) && step == Mark(NSent))
  }

  /** The exact step at which a row gets stranded. */
  lemma StrandedNextIff(s: Sms, step: Step)
    requires Enabled(s, step) && !Stranded(s)
    ensures Stranded(Next(s, step)) <==> Strands(s, step)
  {
  }

  /** A webhook that reports progress, or a generated state move of the row. */
  predicate Rescues(step: Step) { step.Move? || (step.Webhook? && step.late.target in {Pending, Sent}) }

  /** What gets a stuck row going again: as long as its notification is not delivered, a webhook that
      reports failure does so too. */
  predicate Frees(s: Sms, step: Step) {
    Rescues(step) || (step.Webhook? && step.late.target.Error? && !s.note.NSent?)
  }

  predicate RescuedIn(steps: seq<Step>) { exists k :: 0 <= k < |steps| && Rescues(steps[k]) }

  lemma RescuedStep(steps: seq<Step>)
    requires steps != []
    ensures RescuedIn(steps) <==> RescuedIn(steps[..|steps| - 1]) || Rescues(steps[|steps| - 1])
  {
    var init := steps[..|steps| - 1];
    if k :| 0 <= k < |steps| && Rescues(steps[k]) && k < |init| {
      assert Rescues(init[k]);
    }
  }

  /** A stranded row is out of reach of claims, drainers and sweeps, and of a webhook that reports
      failure: over every run it leaves its state if and only if some webhook reports it pending or
      sent or somebody moves it, and then it is never in the queue or in process again. */
  lemma {:induction false} StrandedUntilRescued(s: Sms, steps: seq<Step>, t: Sms)
    requires Stranded(s) && Run(s, steps) == Some(t)
    ensures t == s <==> !RescuedIn(steps)
    ensures t != s ==> t.row.state !in {Outgoing, Process} && t.note.NSent? && t.hands == 0
    ensures forall step :: Enabled(s, step) ==> step.Webhook? || step.Move?
  {
    if steps != [] {
      StrandedUntilRescued(s, steps[..|steps| - 1], Run(s, steps[..|steps| - 1]).value);
      RescuedStep(steps);
    }
  }

  /** Step `k` of a run frees the row. */
  predicate FreesAt(s: Sms, steps: seq<Step>, k: nat) {
    k < |steps| && Run(s, steps[..k]).Some? && Frees(Run(s, steps[..k]).value, steps[k])
  }

  lemma FreesAtStep(s: Sms, steps: seq<Step>)
    requires steps != [] && Run(s, steps).Some?
    ensures var n := |steps| - 1;
      forall k: nat :: FreesAt(s, steps, k) <==>
        FreesAt(s, steps[..n], k) || (k == n && Frees(Run(s, steps[..n]).value, steps[n]))
  {
    var init := steps[..|steps| - 1];
    forall k: nat | k < |init|
      ensures FreesAt(s, steps, k) <==> FreesAt(s, init, k)
    {
      assert init[..k] == steps[..k];
    }
  }

  /** A stuck row in general: over every run it is stuck, and but for its notification unchanged, if
      and only if no step has freed it; and a freed one is never in the queue or in process again. */
  lemma {:induction false} StuckUntilFreed(s: Sms, steps: seq<Step>, t: Sms)
    requires Stuck(s) && Run(s, steps) == Some(t)
    ensures Stuck(t) <==> forall k :: !FreesAt(s, steps, k)
    ensures Stuck(t) ==> t == s.(note := t.note)
    ensures !Stuck(t) ==> t.row.state !in {Outgoing, Process} && t.hands == 0
  {
    if steps != [] {
      var n := |steps| - 1;
      var init, last := steps[..n], steps[n];
      var before := Run(s, init).value;
      StuckUntilFreed(s, init, before);
      FreesAtStep(s, steps);
      if Stuck(before) {
        FreedIsFinal(before, last);
        assert FreesAt(s, steps, n) <==> Frees(before, last);
      } else {
        NeverBack(before, last);
        var k :| FreesAt(s, init, k);
        assert FreesAt(s, steps, k);
      }
    }
  }

  lemma FreedIsFinal(s: Sms, step: Step)
    requires Enabled(s, step) && Stuck(s)
    ensures (Stuck(Next(s, step)) <==> !Frees(s, step)) && !Sticks(s, step)
    ensures !Frees(s, step) ==> Next(s, step) == s.(note := Next(s, step).note)
    ensures Frees(s, step) ==> Next(s, step).row.state !in {Outgoing, Process} && Next(s, step).hands == 0
  {
  }

  lemma NeverBack(s: Sms, step: Step)
    requires Enabled(s, step) && s.row.state !in {Outgoing, Process} && s.hands == 0
    ensures Next(s, step).row.state !in {Outgoing, Process} && Next(s, step).hands == 0
  {
  }

  /** Some step made the row stick and no later one has freed it. */
  ghost predicate StuckSince(steps: seq<Step>, k: nat) {
    && k < |steps| && Run(MINTED, steps[..k]).Some?
    && Sticks(Run(MINTED, steps[..k]).value, steps[k])
    && forall j :: k < j ==> !FreesAt(MINTED, steps, j)
  }

  /** Over whole runs: a row is stuck exactly when some step made it stick, by the condition of
      `Sticks`, and no later step freed it. */
  lemma {:induction false} StuckIff(steps: seq<Step>, t: Sms)
    requires Run(MINTED, steps) == Some(t)
    ensures Stuck(t) <==> exists k :: StuckSince(steps, k)
  {
    if steps != [] {
      var n := |steps| - 1;
      var init, last := steps[..n], steps[n];
      var before := Run(MINTED, init).value;
      StuckIff(init, before);
      forall k: nat
        ensures StuckSince(steps, k) <==>
          (StuckSince(init, k) && !Frees(before, last)) || (k == n && Sticks(before, last))
      {
        StuckSinceStep(steps, k);
      }
      if Stuck(before) {
        var k :| StuckSince(init, k);
        FreedIsFinal(before, last);
        assert StuckSince(steps, k) <==> !Frees(before, last);
      } else {
        StuckNextIff(before, last);
        assert StuckSince(steps, n) <==> Sticks(before, last);
      }
    }
  }

  lemma StuckSinceStep(steps: seq<Step>, k: nat)
    requires steps != [] && Run(MINTED, steps).Some?
    ensures var n := |steps| - 1;
      var before := Run(MINTED, steps[..n]).value;
      StuckSince(steps, k) <==>
        (StuckSince(steps[..n], k) && !Frees(before, steps[n])) || (k == n && Sticks(before, steps[n]))
  {
    var n := |steps| - 1;
    FreesAtStep(MINTED, steps);
    if k < n {
      assert steps[..n][..k] == steps[..k];
      assert FreesAt(MINTED, steps, n) <==> Frees(Run(MINTED, steps[..n]).value, steps[n]);
    }
  }

  /** Some step stranded the row and nothing has rescued it since. */
  ghost predicate StrandedSince(steps: seq<Step>, k: nat) {
    && k < |steps| && Run(MINTED, steps[..k]).Some?
    && Strands(Run(MINTED, steps[..k]).value, steps[k]) && !RescuedIn(steps[k + 1..])
  }

  /** Over whole runs: a row is stranded exactly when some step stranded it, by the condition of
      `Strands`, and no webhook reported progress and nobody moved it since. */
  lemma {:induction false} StrandedIff(steps: seq<Step>, t: Sms)
    requires Run(MINTED, steps) == Some(t)
    ensures Stranded(t) <==> exists k :: StrandedSince(steps, k)
  {
    if steps != [] {
      var n := |steps| - 1;
      var init, last := steps[..n], steps[n];
      var before := Run(MINTED, init).value;
      StrandedIff(init, before);
      forall k: nat
        ensures StrandedSince(steps, k) <==>
          (StrandedSince(init, k) && !Rescues(last)) || (k == n && Strands(before, last))
      {
        SinceStep(steps, k);
      }
      if Stranded(before) {
        var k :| StrandedSince(init, k);
        RescueIsFinal(before, last);
        assert StrandedSince(steps, k) <==> !Rescues(last);
      } else {
        StrandedNextIff(before, last);
        assert StrandedSince(steps, n) <==> Strands(before, last);
      }
    }
  }

  lemma SinceStep(steps: seq<Step>, k: nat)
    requires steps != [] && Run(MINTED, steps).Some?
    ensures var n := |steps| - 1;
      StrandedSince(steps, k) <==>
        (StrandedSince(steps[..n], k) && !Rescues(steps[n]))
        || (k == n && Strands(Run(MINTED, steps[..n]).value, steps[n]))
  {
    var n := |steps| - 1;
    if k < n {
      assert steps[..n][..k] == steps[..k] && steps[..n][k] == steps[k];
      var rest := steps[k + 1..];
      assert rest[..|rest| - 1] == steps[..n][k + 1..] && rest[|rest| - 1] == steps[n];
      RescuedStep(rest);
    } else if k == n {
      assert steps[n + 1..] == [];
    }
  }

  lemma RescueIsFinal(s: Sms, step: Step)
    requires Enabled(s, step) && Stranded(s)
    ensures (Stranded(Next(s, step)) <==> !Rescues(step)) && !Strands(s, step)
  {
  }

  /** A row in process comes by a delivered notification only by such a stale answer, or by hand: as
      long as it was never swept and nobody moved its notification, the transaction of its one
      attempt goes through, whatever the verdict. */
  lemma {:induction false} NeverSweptIsNeverStranded(steps: seq<Step>, s: Sms)
    requires Run(MINTED, steps) == Some(s) && !s.row.swept
    ensures s.row.state.Process? && !MarkedIn(steps) ==> !s.note.NSent? && forall v :: DrainerUnit(s, v).Some?
    ensures s.row.state.Outgoing? ==> s.hands == 0 && (!MarkedIn(steps) ==> s.note.NReady?)
  {
    if steps != [] {
      MarkedStep(steps);
      NeverSweptIsNeverStranded(steps[..|steps| - 1], Run(MINTED, steps[..|steps| - 1]).value);
      NextFromUnswept(Run(MINTED, steps[..|steps| - 1]).value, steps[|steps| - 1], !MarkedIn(steps));
    }
  }

  lemma NextFromUnswept(s: Sms, step: Step, unmarked: bool)
    requires Enabled(s, step) && !s.row.swept && !Next(s, step).row.swept && (unmarked ==> !step.Mark?)
    requires s.row.state.Process? && unmarked ==> !s.note.NSent?
    requires s.row.state.Outgoing? ==> s.hands == 0 && (unmarked ==> s.note.NReady?)
    ensures Next(s, step).row.state.Process? && unmarked ==> !Next(s, step).note.NSent?
    ensures Next(s, step).row.state.Outgoing? ==>
      Next(s, step).hands == 0 && (unmarked ==> Next(s, step).note.NReady?)
  {
  }
}
