/** What the transport is told, over every run: each call carries what its claim read, and what
    separates two calls for one row (src/infrastructure/persistence/mail_queue_repository.rs,
    src/infrastructure/persistence/message_edit_repository.rs). */
module MailContents {
  import opened Prelude
  import opened Events
  import opened Holdings
  import opened MailQueue
  import opened MailRuns

  /** A transport call: by which drainer, after which step of the run it was claimed, and the request. */
  datatype Call = Call(w: nat, claimedAt: nat, request: SendRequest)

  /** The position of the drainer's latest claim, or the length of the run when it made none. */
  function ClaimedAt(steps: seq<Step>, w: nat): (k: nat)
    ensures k <= |steps|
    ensures k < |steps| ==> steps[k].Claim? && steps[k].w == w
    ensures forall m :: k < m < |steps| && steps[m].Claim? ==> steps[m].w != w
    decreases |steps|
  {
    if steps == [] then 0
    else
      var init, last := steps[..|steps| - 1], steps[|steps| - 1];
      if last.Claim? && last.w == w then |init|
      else
        var k := ClaimedAt(init, w);
        if k == |init| then |steps| else k
  }

  /** All transport calls of the run, in order. */
  function Calls(workers: nat, steps: seq<Step>): seq<Call>
    requires After(workers, steps).Some?
  {
    if steps == [] then []
    else
      var init, last := steps[..|steps| - 1], steps[|steps| - 1];
      Calls(workers, init) + if last.HandOver? then [CallBy(After(workers, init).value, init, last.w)] else []
  }

  function CallBy(s: System, steps: seq<Step>, w: nat): Call
    requires w < |s.workers| && s.workers[w].hand != [] && HeadersOf(s, w).Ok?
  {
    var id := s.workers[w].hand[0];
    Call(w, ClaimedAt(steps, w), RequestOf(id, Carried(s, w, id)))
  }

  /** What the row and its message said after the first `k` steps. */
  ghost predicate SaidAt(workers: nat, steps: seq<Step>, k: nat, id: Uuid, letter: Letter) {
    && k <= |steps| && After(workers, steps[..k]).Some?
    && (var s := After(workers, steps[..k]).value; id in s.rows && letter == LetterOf(s.rows[id], s.messages))
  }

  /** Step `k` is a claim of the row by `w`, and `letter` is what row and message said right then. */
  ghost predicate ReadBy(workers: nat, steps: seq<Step>, w: nat, k: nat, id: Uuid, letter: Letter) {
    && k < |steps| && steps[k].Claim? && steps[k].w == w && id in steps[k].ids
    && SaidAt(workers, steps, k, id, letter)
  }

  lemma ReadByExtends(workers: nat, steps: seq<Step>, step: Step, w: nat, k: nat, id: Uuid, letter: Letter)
    requires ReadBy(workers, steps, w, k, id, letter)
    ensures ReadBy(workers, steps + [step], w, k, id, letter)
  {
    assert (steps + [step])[..k] == steps[..k];
  }

  lemma ClaimReads(s: System, step: Step, id: Uuid)
    requires Enabled(s, step) && step.Claim? && id in Apply(s, step).workers[step.w].hand
    ensures id in step.ids && id in s.rows && Carried(Apply(s, step), step.w, id) == LetterOf(s.rows[id], s.messages)
  {
    assert id in Due(s.rows, step.now);
  }

  lemma HoldIsKept(s: System, step: Step, w: nat, id: Uuid)
    requires Enabled(s, step) && !(step.Claim? && step.w == w)
    requires w < |Apply(s, step).workers| && id in Apply(s, step).workers[w].hand
    ensures w < |s.workers| && id in s.workers[w].hand && Carried(Apply(s, step), w, id) == Carried(s, w, id)
  {
    if step.Refuse? || step.HandOver? || step.Settle? || step.Crash? {
      HandShrinks(s, step, w, id);
    } else if step.Claim? {
      assert |Apply(s, step).workers| == |s.workers|;
      OtherClaimKeepsHold(s, step, w);
    } else {
      QuietStepKeepsHands(s, step);
    }
  }

  lemma QuietStepKeepsHands(s: System, step: Step)
    requires Enabled(s, step)
    requires !(step.Refuse? || step.HandOver? || step.Settle? || step.Crash? || step.Claim?)
    ensures Apply(s, step).workers == s.workers && Apply(s, step).letters == s.letters
  {
  }

  lemma OtherClaimKeepsHold(s: System, step: Step, w: nat)
    requires Enabled(s, step) && step.Claim? && step.w != w && w < |s.workers|
    ensures Apply(s, step).workers[w] == s.workers[w]
    ensures forall id :: Carried(Apply(s, step), w, id) == Carried(s, w, id)
  {
  }

  lemma HandShrinks(s: System, step: Step, w: nat, id: Uuid)
    requires Enabled(s, step) && (step.Refuse? || step.HandOver? || step.Settle? || step.Crash?)
    requires w < |Apply(s, step).workers| && id in Apply(s, step).workers[w].hand
    ensures w < |s.workers| && id in s.workers[w].hand && Apply(s, step).letters == s.letters
  {
  }

  /** What a drainer holds for a row in its hand is what its latest claim read. */
  lemma {:induction false} CarriedIsAsClaimed(workers: nat, steps: seq<Step>, s: System, w: nat, id: Uuid)
    requires After(workers, steps) == Some(s) && w < |s.workers| && id in s.workers[w].hand
    ensures ReadBy(workers, steps, w, ClaimedAt(steps, w), id, Carried(s, w, id))
  {
    var n := |steps| - 1;
    var init, last := steps[..n], steps[n];
    var before := After(workers, init).value;
    assert steps == init + [last];
    if last.Claim? && last.w == w {
      ClaimReads(before, last, id);
    } else {
      HoldIsKept(before, last, w, id);
      CarriedIsAsClaimed(workers, init, before, w, id);
      ReadByExtends(workers, init, last, w, ClaimedAt(init, w), id, Carried(s, w, id));
    }
  }

  /** The call's request says what its claim read, and that was `letter`. */
  ghost predicate Carries(workers: nat, steps: seq<Step>, call: Call, letter: Letter) {
    && letter.columns.headers.Ok? && call.request == RequestOf(call.request.mailId, letter)
    && ReadBy(workers, steps, call.w, call.claimedAt, call.request.mailId, letter)
  }

  /** Every transport call, over every run, carries the row's columns and the message's text exactly as
      they were at the claim it came from. */
  lemma {:induction false} CallsCarryTheirClaim(workers: nat, steps: seq<Step>, s: System, call: Call)
    requires After(workers, steps) == Some(s) && call in Calls(workers, steps)
    ensures exists letter :: Carries(workers, steps, call, letter)
  {
    var n := |steps| - 1;
    var init, last := steps[..n], steps[n];
    var before := After(workers, init).value;
    assert steps == init + [last];
    if call in Calls(workers, init) {
      CallsCarryTheirClaim(workers, init, before, call);
      var letter :| Carries(workers, init, call, letter);
      ReadByExtends(workers, init, last, call.w, call.claimedAt, call.request.mailId, letter);
      assert Carries(workers, steps, call, letter);
    } else {
      var id := before.workers[last.w].hand[0];
      CarriedIsAsClaimed(workers, init, before, last.w, id);
      ReadByExtends(workers, init, last, last.w, ClaimedAt(init, last.w), id, Carried(before, last.w, id));
      assert Carries(workers, steps, call, Carried(before, last.w, id));
    }
  }

  // ---- what changes a letter ----

  /** A generated write of the row's own columns. */
  predicate WritesRow(step: Step, id: Uuid) { step.Patch? && step.id == id }

  /** An edit, a generated write or the removal of the message. */
  predicate WritesText(step: Step, message: Uuid) { (step.Edit? || step.Amend?) && step.message == message }

  lemma StepKeepsColumns(s: System, step: Step, id: Uuid)
    requires Enabled(s, step) && id in s.rows && !WritesRow(step, id)
    ensures id in Apply(s, step).rows && Apply(s, step).rows[id].columns == s.rows[id].columns
  {
    match step
    case Refuse(w) => FailureKeepsColumns(s.rows, s.workers[w].hand[0]);
    case Settle(w) => VerdictOnRow(s.rows, s.workers[w].hand[0], s.workers[w].verdict.value, Ok(()));
    case Callback(x, verdict) => VerdictOnRow(s.rows, x, verdict, verdict);
    case Requeue(x) => RequeueOnRow(s.rows, x);
    case _ =>
  }

  lemma FailureKeepsColumns(rows: Mails, failed: Uuid)
    ensures forall id, f, r :: id in rows ==>
      id in MarkFailedRow(rows, failed, f, r) && MarkFailedRow(rows, failed, f, r)[id].columns == rows[id].columns
  {
  }

  lemma StepKeepsText(s: System, step: Step, message: Uuid)
    requires Enabled(s, step) && !WritesText(step, message)
    ensures TextOf(message, Apply(s, step).messages) == TextOf(message, s.messages)
  {
  }

  predicate NoRowWrite(steps: seq<Step>, k: nat, n: nat, id: Uuid) {
    forall m :: 0 <= k <= m < n <= |steps| ==> !WritesRow(steps[m], id)
  }

  predicate NoTextWrite(steps: seq<Step>, k: nat, n: nat, message: Uuid) {
    forall m :: 0 <= k <= m < n <= |steps| ==> !WritesText(steps[m], message)
  }

  /** Nothing that `letter` was read from is written by this step, as far as it says. */
  lemma StepKeepsLetter(s: System, step: Step, id: Uuid, letter: Letter)
    requires Enabled(s, step) && id in s.rows && letter.columns == s.rows[id].columns && !WritesRow(step, id)
    ensures var t := Apply(s, step);
      && id in t.rows && t.rows[id].columns == letter.columns
      && (letter.text == TextOf(letter.columns.message, s.messages) && !WritesText(step, letter.columns.message) ==>
            letter.text == TextOf(letter.columns.message, t.messages))
  {
    StepKeepsColumns(s, step, id);
    if !WritesText(step, letter.columns.message) {
      StepKeepsText(s, step, letter.columns.message);
    }
  }

  /** Since the first `k` steps of a run without a generated write of the row, its own columns are the
      same, whatever drainers, verdicts, requeues and edits did; and without a write of its message
      so is the text. */
  lemma {:induction false} LetterSince(workers: nat, steps: seq<Step>, s: System, k: nat, id: Uuid, letter: Letter)
    requires After(workers, steps) == Some(s) && SaidAt(workers, steps, k, id, letter)
    requires NoRowWrite(steps, k, |steps|, id)
    ensures id in s.rows && s.rows[id].columns == letter.columns
    ensures NoTextWrite(steps, k, |steps|, letter.columns.message) ==>
      letter.text == TextOf(letter.columns.message, s.messages)
  {
    var n := |steps| - 1;
    if k == |steps| {
      assert steps[..k] == steps;
    } else {
      var init, last := steps[..n], steps[n];
      var before := After(workers, init).value;
      assert init[..k] == steps[..k];
      WritesInInit(steps, k, id, letter.columns.message);
      LetterSince(workers, init, before, k, id, letter);
      StepKeepsLetter(before, last, id, letter);
    }
  }

  lemma WritesInInit(steps: seq<Step>, k: nat, id: Uuid, message: Uuid)
    requires k < |steps|
    ensures var n := |steps| - 1;
      && (NoRowWrite(steps, k, n + 1, id) ==> NoRowWrite(steps[..n], k, n, id) && !WritesRow(steps[n], id))
      && (NoTextWrite(steps, k, n + 1, message) ==>
            NoTextWrite(steps[..n], k, n, message) && !WritesText(steps[n], message))
  {
  }

  /** Between two moments without a generated write of the row its own columns are the same, and
      without a write of its message so is the text. */
  lemma OnlyWritesChangeLetters(
      workers: nat, steps: seq<Step>, k: nat, n: nat, id: Uuid, a: Letter, b: Letter)
    requires k <= n && SaidAt(workers, steps, k, id, a) && SaidAt(workers, steps, n, id, b)
    requires NoRowWrite(steps, k, n, id)
    ensures a.columns == b.columns
    ensures NoTextWrite(steps, k, n, a.columns.message) ==> a.text == b.text
  {
    var upTo := steps[..n];
    assert upTo[..k] == steps[..k];
    assert forall m :: 0 <= m < n ==> upTo[m] == steps[m];
    LetterSince(workers, upTo, After(workers, upTo).value, k, id, a);
    if NoTextWrite(steps, k, n, a.columns.message) {
      assert NoTextWrite(upTo, k, n, a.columns.message);
    }
  }

  /** Two transport calls for one row, by whichever drainers: they are the same request unless, between
      their claims, somebody wrote the row's own columns, or edited, amended or removed its message;
      and without a write of the row they can differ in sender, subject and body only. */
  lemma CallsDifferOnlyByWrites(workers: nat, steps: seq<Step>, s: System, first: Call, second: Call)
    requires After(workers, steps) == Some(s)
    requires first in Calls(workers, steps) && second in Calls(workers, steps)
    requires first.request.mailId == second.request.mailId && first.claimedAt <= second.claimedAt
    requires NoRowWrite(steps, first.claimedAt, second.claimedAt, first.request.mailId)
    ensures var r, q := first.request, second.request;
      && r.message == q.message && r.to == q.to && r.replyTo == q.replyTo && r.headers == q.headers
      && (NoTextWrite(steps, first.claimedAt, second.claimedAt, r.message) ==> r == q)
  {
    var id := first.request.mailId;
    CallsCarryTheirClaim(workers, steps, s, first);
    CallsCarryTheirClaim(workers, steps, s, second);
    var a :| Carries(workers, steps, first, a);
    var b :| Carries(workers, steps, second, b);
    OnlyWritesChangeLetters(workers, steps, first.claimedAt, second.claimedAt, id, a, b);
  }
}
