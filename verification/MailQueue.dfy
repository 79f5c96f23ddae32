/** The outgoing-mail queue: guarded row steps and the drainer
    (src/application/service/mail_queue_write_service.rs, src/infrastructure/persistence/mail_queue_repository.rs). */
module MailQueue {
  import opened Prelude
  import opened Events
  import opened Holdings
  import opened Recipients

  datatype MailState = Outgoing | Exception | Sent | Received | Canceled

  datatype FailureType =
    | MailSmtp | MailEmailInvalid | MailBounce | MailBlacklist | MailRecipient | MailServer | Unknown

  /** The row's own columns. `headers` is what the single-line guard makes of the headers column. */
  datatype Columns = Columns(
    message: Uuid, emailTo: Option<string>, emailCc: Option<string>, replyTo: Option<string>,
    headers: Result<map<string, string>, string>)

  datatype MailRow = MailRow(
    state: MailState, scheduled: Option<int>, failureType: Option<FailureType>, reason: Option<string>,
    columns: Columns)

  /** The part of a message that a mail carries; authors may edit it at any time. */
  datatype Text = Text(emailFrom: Option<string>, subject: Option<string>, body: Option<string>)

  type Messages = map<Uuid, Text>

  /** What a claim hands out: the row's own columns with the message's text of that moment, blank
      when there is no such message. */
  datatype Letter = Letter(columns: Columns, text: Text)

  function TextOf(message: Uuid, messages: Messages): Text {
    if message in messages then messages[message] else Text(None, None, None)
  }

  function LetterOf(row: MailRow, messages: Messages): Letter {
    Letter(row.columns, TextOf(row.columns.message, messages))
  }

  type Mails = map<Uuid, MailRow>

  datatype SendRequest = SendRequest(
    mailId: Uuid, message: Uuid, sender: string, to: seq<string>, subject: Option<string>, body: string,
    replyTo: Option<string>, headers: map<string, string>)
  datatype SendFailure = SendFailure(failureType: string, message: string)
  type Verdict = Result<(), SendFailure>

  datatype DrainOutcome = DrainOutcome(claimed: nat, sent: nat, failed: nat)

  /** A transport failure code folded onto the database vocabulary. */
  function NormalizeFailureType(raw: string): FailureType {
    match raw
    case "mail_smtp" => MailSmtp
    case "mail_email_invalid" => MailEmailInvalid
    case "mail_bounce" => MailBounce
    case "mail_blacklist" => MailBlacklist
    case "mail_recipient" => MailRecipient
    case "mail_server" => MailServer
    case "mail_email_missing" => MailRecipient
    case "mail_from_invalid" => MailServer
    case "mail_from_missing" => MailServer
    case _ => Unknown
  }

  // ---- the guarded row steps ----

  predicate Claimable(row: MailRow, now: int) {
    row.state.Outgoing? && (row.scheduled.None? || row.scheduled.value <= now)
  }

  function Due(rows: Mails, now: int): set<Uuid> {
    set id | id in rows && Claimable(rows[id], now)
  }

  /** The crash-safe claim: the row is marked failed before anything is sent. */
  function Claimed(row: MailRow): MailRow {
    row.(state := Exception, failureType := Some(Unknown))
  }

  function ClaimRows(rows: Mails, ids: seq<Uuid>): Mails {
    map id | id in rows :: if id in ids then Claimed(rows[id]) else rows[id]
  }

  predicate Open(rows: Mails, id: Uuid) {
    id in rows && (rows[id].state.Outgoing? || rows[id].state.Exception?)
  }

  function MarkSentRow(rows: Mails, id: Uuid): Mails {
    if Open(rows, id) then rows[id := rows[id].(state := Sent, failureType := None, reason := None)] else rows
  }

  function MarkFailedRow(rows: Mails, id: Uuid, failure: FailureType, reason: Option<string>): Mails {
    if Open(rows, id)
    then rows[id := rows[id].(state := Exception, failureType := Some(failure), reason := reason)] else rows
  }

  function RequeueRow(rows: Mails, id: Uuid): Mails {
    if id in rows && rows[id].state.Exception?
    then rows[id := rows[id].(state := Outgoing, failureType := None, reason := None)] else rows
  }

  /** The moves the state-transition trigger accepts, whoever makes them. */
  predicate Declared(from: MailState, to: MailState) {
    (from, to) in {
      (Exception, Canceled), (Exception, Outgoing), (Exception, Sent),
      (Outgoing, Canceled), (Outgoing, Exception), (Outgoing, Sent), (Sent, Received)}
  }

  function SettleRow(rows: Mails, id: Uuid, verdict: Verdict): Mails {
    match verdict
    case Ok(_) => MarkSentRow(rows, id)
    case Err(f) => MarkFailedRow(rows, id, NormalizeFailureType(f.failureType), Some(f.message))
  }

  function LettersOf(rows: Mails, ids: seq<Uuid>, messages: Messages): seq<Letter>
    requires forall id :: id in ids ==> id in rows
  {
    seq(|ids|, i requires 0 <= i < |ids| => assert ids[i] in ids; LetterOf(rows[ids[i]], messages))
  }

  function OrBlank(s: Option<string>): string { if s.Some? then s.value else "" }

  /** A missing sender or body is sent as an empty one. */
  function RequestTo(id: Uuid, letter: Letter, to: seq<string>): SendRequest
    requires letter.columns.headers.Ok?
  {
    var Letter(columns, text) := letter;
    SendRequest(id, columns.message, OrBlank(text.emailFrom), to, text.subject, OrBlank(text.body),
                columns.replyTo, columns.headers.value)
  }

  function RequestOf(id: Uuid, letter: Letter): SendRequest
    requires letter.columns.headers.Ok?
  {
    RequestTo(id, letter, Envelope(letter.columns.emailTo, letter.columns.emailCc))
  }

  function Refusal(defect: string): string { "malformed per-mail headers on the queue row: " + defect }

  /** The row a drain leaves behind for a row it claimed. */
  function Drained(id: Uuid, row: MailRow, messages: Messages, port: SendRequest -> Verdict): MailRow {
    match row.columns.headers
    case Err(defect) => row.(state := Exception, failureType := Some(Unknown), reason := Some(Refusal(defect)))
    case Ok(_) =>
      match port(RequestOf(id, LetterOf(row, messages)))
      case Ok(_) => row.(state := Sent, failureType := None, reason := None)
      case Err(f) =>
        row.(state := Exception, failureType := Some(NormalizeFailureType(f.failureType)), reason := Some(f.message))
  }

  /** A row with readable headers makes one request, any other none. */
  function RequestsFor(row: MailRow, id: Uuid, messages: Messages): seq<SendRequest> {
    if row.columns.headers.Ok? then [RequestOf(id, LetterOf(row, messages))] else []
  }

  /** The requests the transport sees when these rows are drained in this order. */
  function Requests(rows: Mails, ids: seq<Uuid>, messages: Messages): seq<SendRequest>
    requires forall id :: id in ids ==> id in rows
  {
    if ids == [] then []
    else
      var init, id := ids[..|ids| - 1], ids[|ids| - 1];
      Requests(rows, init, messages) + RequestsFor(rows[id], id, messages)
  }

  function SentAmong(rows: Mails, ids: seq<Uuid>, messages: Messages, port: SendRequest -> Verdict): nat
    requires forall id :: id in ids ==> id in rows
  {
    if ids == [] then 0
    else
      var init, id := ids[..|ids| - 1], ids[|ids| - 1];
      SentAmong(rows, init, messages, port) + if Drained(id, rows[id], messages, port).state.Sent? then 1 else 0
  }

  function Reported(verdict: Verdict): MailState { if verdict.Ok? then Sent else Exception }

  /** A verdict on a row: no other row changes, no row's content changes; an outgoing or failed row
      becomes sent or failed as the verdict says, any other state stays; and once sent, a row
      takes no further verdict, as a repeated one changes nothing anyway. */
  lemma VerdictOnRow(rows: Mails, id: Uuid, verdict: Verdict, again: Verdict)
    ensures var after := SettleRow(rows, id, verdict);
      && after.Keys == rows.Keys
      && (forall x :: x in rows ==> after[x].columns == rows[x].columns && after[x].scheduled == rows[x].scheduled)
      && (forall x :: x in rows && x != id ==> after[x] == rows[x])
      && (id in rows && rows[id].state in {Outgoing, Exception} ==> after[id].state == Reported(verdict))
      && (id in rows && rows[id].state !in {Outgoing, Exception} ==> after[id] == rows[id])
      && SettleRow(after, id, verdict) == after
      && (id in after && after[id].state.Sent? ==> SettleRow(after, id, again) == after)
  {
  }

  /** A requeue of a row: no other row changes, no row's content changes; exactly a failed row goes
      back to outgoing, its failure forgotten; and a second requeue changes nothing. */
  lemma RequeueOnRow(rows: Mails, id: Uuid)
    ensures var after := RequeueRow(rows, id);
      && after.Keys == rows.Keys
      && (forall x :: x in rows ==> after[x].columns == rows[x].columns && after[x].scheduled == rows[x].scheduled)
      && (forall x :: x in rows && x != id ==> after[x] == rows[x])
      && (after != rows <==> id in rows && rows[id].state.Exception?)
      && (after != rows ==> after[id].state.Outgoing? && after[id].failureType.None? && after[id].reason.None?)
      && RequeueRow(after, id) == after
  {
  }

  /** Claims, verdicts and requeues make only the moves the state-transition trigger accepts. */
  lemma StepsPassTheTrigger(rows: Mails, id: Uuid, ids: seq<Uuid>, verdict: Verdict, now: int)
    requires id in rows
    ensures (forall x :: x in ids ==> x in Due(rows, now)) ==> Accepts(rows[id], ClaimRows(rows, ids)[id])
    ensures Accepts(rows[id], SettleRow(rows, id, verdict)[id])
    ensures Accepts(rows[id], RequeueRow(rows, id)[id])
  {
  }

  predicate Accepts(before: MailRow, after: MailRow) {
    after.state != before.state ==> Declared(before.state, after.state)
  }

  function About(id: Uuid): SendRequest -> bool { (r: SendRequest) => r.mailId == id }

  /** The transport sees each drained row with readable headers exactly once, refused rows and
      rows not drained never, and always with that row's own envelope and headers. */
  lemma {:induction false} OneRequestPerRow(rows: Mails, messages: Messages, ids: seq<Uuid>, id: Uuid)
    requires Distinct(ids) && forall x :: x in ids ==> x in rows
    ensures Filter(About(id), Requests(rows, ids, messages))
         == if id in ids && rows[id].columns.headers.Ok? then [RequestOf(id, LetterOf(rows[id], messages))] else []
  {
    if ids != [] {
      var init, last := ids[..|ids| - 1], ids[|ids| - 1];
      assert ids == init + [last] && last !in init;
      OneRequestPerRow(rows, messages, init, id);
      if rows[last].columns.headers.Ok? {
        FilterStep(About(id), Requests(rows, init, messages), RequestOf(last, LetterOf(rows[last], messages)));
      } else {
        assert Requests(rows, ids, messages) == Requests(rows, init, messages);
      }
    }
  }

  /** The rows once these claimed ones have been settled. */
  function DrainRows(rows: Mails, ids: seq<Uuid>, messages: Messages, port: SendRequest -> Verdict): Mails {
    map id | id in rows :: if id in ids then Drained(id, rows[id], messages, port) else rows[id]
  }

  lemma DrainStep(rows: Mails, ids: seq<Uuid>, id: Uuid, messages: Messages, port: SendRequest -> Verdict)
    requires id in rows && id !in ids
    ensures id in DrainRows(rows, ids, messages, port) && DrainRows(rows, ids, messages, port)[id] == rows[id]
    ensures DrainRows(rows, ids + [id], messages, port)
      == DrainRows(rows, ids, messages, port)[id := Drained(id, rows[id], messages, port)]
  {
    assert forall x :: x in ids + [id] <==> x in ids || x == id;
  }

  /** The rows of `ids` have been settled, in this order, with these requests and successes. */
  ghost predicate Settled(
      was: Mails, ids: seq<Uuid>, messages: Messages, port: SendRequest -> Verdict, rows: Mails, sent: nat,
      requests: seq<SendRequest>) {
    && (forall id :: id in ids ==> id in was)
    && rows == DrainRows(was, ids, messages, port)
    && sent == SentAmong(was, ids, messages, port) && requests == Requests(was, ids, messages)
  }

  lemma SettledStep(
      was: Mails, ids: seq<Uuid>, messages: Messages, port: SendRequest -> Verdict, rows: Mails, sent: nat,
      requests: seq<SendRequest>, id: Uuid)
    requires Settled(was, ids, messages, port, rows, sent, requests) && id in was && id !in ids
    ensures id in rows && rows[id] == was[id]
    ensures var drained := Drained(id, was[id], messages, port);
      Settled(was, ids + [id], messages, port, rows[id := drained], sent + if drained.state.Sent? then 1 else 0,
              requests + RequestsFor(was[id], id, messages))
  {
    DrainStep(was, ids, id, messages, port);
    RequestsStep(was, ids, id, messages);
    SentStep(was, ids, id, messages, port);
  }

  /** `ids` were drained from `before`, giving `after`; every other row is untouched. */
  ghost predicate DrainedFrom(
      before: Mails, after: Mails, ids: seq<Uuid>, messages: Messages, port: SendRequest -> Verdict) {
    && after.Keys == before.Keys
    && Distinct(ids)
    && (forall id :: id in ids ==> id in before && before[id].state.Outgoing?)
    && (forall id :: id in before ==>
          after[id] == if id in ids then Drained(id, before[id], messages, port) else before[id])
  }

  class MailQueueService {
    var rows: Mails
    var messages: Messages

    constructor (rows: Mails, messages: Messages)
      ensures this.rows == rows && this.messages == messages
    {
      this.rows, this.messages := rows, messages;
    }

    /** One claim: the `batch` due rows of lowest id, all due rows when they fit, each marked before
        the commit and handed out with its message's text. */
    method ClaimBatch(batch: nat, now: int) returns (ids: seq<Uuid>, letters: seq<Letter>)
      modifies this`rows
      ensures Distinct(ids) && |ids| == Min(batch, |Due(old(rows), now)|)
      ensures forall id :: id in ids ==> id in Due(old(rows), now)
      ensures forall x, y :: x in ids && y in Due(old(rows), now) && y !in ids ==> x <= y
      ensures forall id :: id in ids ==> id in rows
      ensures rows == ClaimRows(old(rows), ids)
      ensures letters == LettersOf(rows, ids, messages)
    {
      ids := TakeFirst(Due(rows, now), (id: Uuid) => id, batch);
      rows := ClaimRows(rows, ids);
      letters := LettersOf(rows, ids, messages);
    }

    method MarkSent(id: Uuid) returns (advanced: bool)
      modifies this`rows
      ensures advanced <==> Open(old(rows), id)
      ensures rows == MarkSentRow(old(rows), id)
    {
      advanced := Open(rows, id);
      if advanced { rows := rows[id := rows[id].(state := Sent, failureType := None, reason := None)]; }
    }

    method MarkFailed(id: Uuid, failure: FailureType, reason: Option<string>) returns (advanced: bool)
      modifies this`rows
      ensures advanced <==> Open(old(rows), id)
      ensures rows == MarkFailedRow(old(rows), id, failure, reason)
    {
      advanced := Open(rows, id);
      if advanced { rows := rows[id := rows[id].(state := Exception, failureType := Some(failure), reason := reason)]; }
    }

    method Requeue(id: Uuid) returns (requeued: bool)
      modifies this`rows
      ensures requeued <==> id in old(rows) && old(rows)[id].state.Exception?
      ensures rows == RequeueRow(old(rows), id)
    {
      requeued := id in rows && rows[id].state.Exception?;
      if requeued { rows := rows[id := rows[id].(state := Outgoing, failureType := None, reason := None)]; }
    }

    /** The inner loop: hand each claimed row to the transport and apply its verdict. */
    method SendBatch(claimed: seq<Uuid>, letters: seq<Letter>, port: SendRequest -> Verdict)
        returns (sent: nat, failed: nat, requests: seq<SendRequest>)
      requires Distinct(claimed) && forall id :: id in claimed ==> id in rows && rows[id].state.Exception?
      requires letters == LettersOf(rows, claimed, messages)
      modifies this`rows
      ensures rows == DrainRows(old(rows), claimed, messages, port)
      ensures sent == SentAmong(old(rows), claimed, messages, port) && sent + failed == |claimed|
      ensures requests == Requests(old(rows), claimed, messages)
    {
      sent, failed, requests := 0, 0, [];
      ghost var was := rows;
      for i := 0 to |claimed|
        invariant Settled(was, claimed[..i], messages, port, rows, sent, requests) && sent + failed == i
      {
        var id := claimed[i];
        assert claimed[..i + 1] == claimed[..i] + [id];
        assert id in claimed && id !in claimed[..i];
        SettledStep(was, claimed[..i], messages, port, rows, sent, requests, id);
        var ok, request := SendOne(id, letters[i], port);
        requests := requests + request;
        if ok { sent := sent + 1; } else { failed := failed + 1; }
      }
      assert claimed[..|claimed|] == claimed;
    }

    /** One claimed row: its request to the transport and its verdict, or its refusal. */
    method SendOne(id: Uuid, letter: Letter, port: SendRequest -> Verdict) returns (ok: bool, request: seq<SendRequest>)
      requires id in rows && rows[id].state.Exception? && letter == LetterOf(rows[id], messages)
      modifies this`rows
      ensures rows == old(rows)[id := Drained(id, old(rows)[id], messages, port)]
      ensures ok <==> Drained(id, old(rows)[id], messages, port).state.Sent?
      ensures request == RequestsFor(old(rows)[id], id, messages)
    {
      if letter.columns.headers.Err? {
        var advanced := MarkFailed(id, Unknown, Some(Refusal(letter.columns.headers.error)));
        return false, [];
      }
      var to := SplitRecipients(letter.columns.emailTo, letter.columns.emailCc);
      request := [RequestTo(id, letter, to)];
      var verdict := port(request[0]);
      match verdict {
        case Ok(_) =>
          var advanced := MarkSent(id);
          ok := true;
        case Err(f) =>
          var advanced := MarkFailed(id, NormalizeFailureType(f.failureType), Some(f.message));
          ok := false;
      }
    }

    /** One pass of the drain loop: claim a batch, then settle every row of it. */
    method DrainPass(port: SendRequest -> Verdict, batch: nat, now: int, before: DrainOutcome, seen: seq<SendRequest>,
                     ghost origin: Mails, ghost drained: seq<Uuid>)
        returns (claimed: seq<Uuid>, total: DrainOutcome, requests: seq<SendRequest>)
      requires Progress(origin, rows, drained, messages, port, before, seen)
      modifies this`rows
      ensures Progress(origin, rows, drained + claimed, messages, port, total, requests)
      ensures |claimed| == Min(batch, |Due(old(rows), now)|)
      ensures claimed == [] ==> rows == old(rows) && total == before && requests == seen
    {
      ghost var start := rows;
      var letters;
      claimed, letters := ClaimBatch(batch, now);
      total, requests := before, seen;
      if claimed == [] {
        assert rows == start && drained + claimed == drained;
        return;
      }
      total := total.(claimed := total.claimed + |claimed|);
      var sent, failed, more := SendBatch(claimed, letters, port);
      total := total.(sent := total.sent + sent, failed := total.failed + failed);
      requests := requests + more;
      BatchExtends(origin, start, rows, drained, claimed, messages, port);
      BatchIsUntouched(origin, start, drained, claimed, messages, port);
      BatchAddsUp(origin, start, drained, claimed, messages, port);
    }

    /** The drainer run to its end, with no other writer: every claimed row is settled once, the
        transport sees each well-formed one once, and an unlimited drain leaves nothing due.
        `clock` gives the time of each claim. */
    method ProcessQueue(port: SendRequest -> Verdict, batch: nat, maxBatches: nat, clock: nat -> int)
        returns (total: DrainOutcome, requests: seq<SendRequest>, passes: nat, ghost drained: seq<Uuid>)
      modifies this`rows
      ensures DrainedFrom(old(rows), rows, drained, messages, port)
      ensures requests == Requests(old(rows), drained, messages)
      ensures total.claimed == |drained| && total.sent == SentAmong(old(rows), drained, messages, port)
      ensures total.claimed == total.sent + total.failed
      ensures maxBatches != 0 ==> passes <= maxBatches
      ensures batch > 0 && (maxBatches == 0 || passes < maxBatches) ==> Due(rows, clock(passes)) == {}
    {
      total, requests, passes, drained := DrainOutcome(0, 0, 0), [], 0, [];
      while true
        invariant Progress(old(rows), rows, drained, messages, port, total, requests)
        invariant maxBatches != 0 ==> passes < maxBatches
        decreases |rows.Keys| - |drained|
      {
        ghost var was := drained;
        var claimed;
        claimed, total, requests := DrainPass(port, batch, clock(passes), total, requests, old(rows), drained);
        drained := drained + claimed;
        DrainedAreRows(drained, rows.Keys);
        if claimed == [] { break; }
        passes := passes + 1;
        if maxBatches != 0 && passes >= maxBatches { break; }
      }
    }
  }

  /** What the drain loop has done so far, starting from `origin`. */
  ghost predicate Progress(
      origin: Mails, rows: Mails, drained: seq<Uuid>, messages: Messages, port: SendRequest -> Verdict,
      total: DrainOutcome, requests: seq<SendRequest>) {
    && DrainedFrom(origin, rows, drained, messages, port)
    && requests == Requests(origin, drained, messages)
    && total.claimed == |drained| == total.sent + total.failed
    && total.sent == SentAmong(origin, drained, messages, port)
  }

  /** A claimed row was never drained before, so it still is what the drain started from. */
  lemma BatchIsUntouched(
      before: Mails, start: Mails, was: seq<Uuid>, batch: seq<Uuid>, messages: Messages,
      port: SendRequest -> Verdict)
    requires DrainedFrom(before, start, was, messages, port)
    requires forall id :: id in batch ==> id in start && start[id].state.Outgoing?
    ensures forall id :: id in batch ==> id in before && id !in was && start[id] == before[id]
  {
  }

  lemma BatchExtends(before: Mails, start: Mails, after: Mails, was: seq<Uuid>, batch: seq<Uuid>,
      messages: Messages, port: SendRequest -> Verdict)
    requires DrainedFrom(before, start, was, messages, port)
    requires Distinct(batch) && forall id :: id in batch ==> id in start && start[id].state.Outgoing?
    requires after == DrainRows(ClaimRows(start, batch), batch, messages, port)
    ensures DrainedFrom(before, after, was + batch, messages, port)
  {
    BatchIsUntouched(before, start, was, batch, messages, port);
    DistinctConcat(was, batch);
  }

  /** The totals and requests of a batch continue those of the batches before it. */
  lemma {:induction false} BatchAddsUp(before: Mails, start: Mails, was: seq<Uuid>, batch: seq<Uuid>,
      messages: Messages, port: SendRequest -> Verdict)
    requires forall id :: id in was ==> id in before
    requires forall id :: id in batch ==> id in before && id in start && start[id] == before[id]
    ensures var mid := ClaimRows(start, batch);
      && Requests(before, was + batch, messages) == Requests(before, was, messages) + Requests(mid, batch, messages)
      && SentAmong(before, was + batch, messages, port)
         == SentAmong(before, was, messages, port) + SentAmong(mid, batch, messages, port)
  {
    AddUp(before, ClaimRows(start, batch), was, batch, messages, port);
  }

  lemma AddUp(
      before: Mails, mid: Mails, was: seq<Uuid>, batch: seq<Uuid>, messages: Messages, port: SendRequest -> Verdict)
    requires forall id :: id in was ==> id in before
    requires forall id :: id in batch ==> id in before && id in mid && mid[id] == Claimed(before[id])
    ensures Requests(before, was + batch, messages) == Requests(before, was, messages) + Requests(mid, batch, messages)
    ensures SentAmong(before, was + batch, messages, port)
      == SentAmong(before, was, messages, port) + SentAmong(mid, batch, messages, port)
  {
    RequestsAddUp(before, mid, was, batch, messages);
    SentAddUp(before, mid, was, batch, messages, port);
  }

  lemma RequestsStep(rows: Mails, ids: seq<Uuid>, id: Uuid, messages: Messages)
    requires id in rows && forall x :: x in ids ==> x in rows
    ensures Requests(rows, ids + [id], messages)
      == Requests(rows, ids, messages) + RequestsFor(rows[id], id, messages)
  {
    assert (ids + [id])[..|ids|] == ids;
  }

  lemma SentStep(rows: Mails, ids: seq<Uuid>, id: Uuid, messages: Messages, port: SendRequest -> Verdict)
    requires id in rows && forall x :: x in ids ==> x in rows
    ensures SentAmong(rows, ids + [id], messages, port)
      == SentAmong(rows, ids, messages, port) + if Drained(id, rows[id], messages, port).state.Sent? then 1 else 0
  {
    assert (ids + [id])[..|ids|] == ids;
  }

  lemma {:induction false} RequestsAddUp(
      before: Mails, mid: Mails, was: seq<Uuid>, batch: seq<Uuid>, messages: Messages)
    requires forall id :: id in was ==> id in before
    requires forall id :: id in batch ==> id in before && id in mid && mid[id] == Claimed(before[id])
    ensures Requests(before, was + batch, messages) == Requests(before, was, messages) + Requests(mid, batch, messages)
  {
    if batch == [] {
      assert was + batch == was;
    } else {
      var init, id := batch[..|batch| - 1], batch[|batch| - 1];
      assert was + batch == was + init + [id] && batch == init + [id];
      RequestsAddUp(before, mid, was, init, messages);
      RequestsStep(before, was + init, id, messages);
      RequestsStep(mid, init, id, messages);
      Associate(Requests(before, was, messages), Requests(mid, init, messages), RequestsFor(mid[id], id, messages));
    }
  }

  lemma ClaimingChangesNoVerdict(id: Uuid, row: MailRow, messages: Messages, port: SendRequest -> Verdict)
    ensures Drained(id, Claimed(row), messages, port).state == Drained(id, row, messages, port).state
  {
  }

  lemma {:induction false} SentAddUp(before: Mails, mid: Mails, was: seq<Uuid>, batch: seq<Uuid>,
      messages: Messages, port: SendRequest -> Verdict)
    requires forall id :: id in was ==> id in before
    requires forall id :: id in batch ==> id in before && id in mid && mid[id] == Claimed(before[id])
    ensures SentAmong(before, was + batch, messages, port)
      == SentAmong(before, was, messages, port) + SentAmong(mid, batch, messages, port)
  {
    if batch == [] {
      assert was + batch == was;
    } else {
      var init, id := batch[..|batch| - 1], batch[|batch| - 1];
      assert was + batch == was + init + [id] && batch == init + [id];
      SentAddUp(before, mid, was, init, messages, port);
      SentStep(before, was + init, id, messages, port);
      SentStep(mid, init, id, messages, port);
      ClaimingChangesNoVerdict(id, before[id], messages, port);
    }
  }
}
