/** Any number of relay deliveries at once: others may store between one's probe and its insert
    (src/application/service/mail_inbound_service.rs). */
module InboundRuns {
  import opened Prelude
  import opened Events
  import opened Inbound

  datatype Answer = Answer(messageId: Option<string>, outcome: Outcome)

  /** `pending[w]` is the message id of the delivery worker `w` has probed for without a hit;
      `routed` are the rows named by routed events. */
  datatype System = System(rows: Rows, pending: seq<Option<Option<string>>>, answers: seq<Answer>, routed: seq<Uuid>)

  /** A delivery probes, then is turned away by allowlist or ladder, or inserts. When the index
      refuses the insert, the handler probes again on the same transaction, which the database
      has aborted by then, so the delivery fails without an answer. */
  datatype Step =
    | Probe(w: nat, messageId: Option<string>, found: Option<Uuid>)
    | TurnAway(w: nat, allowed: bool)
    | Insert(w: nat, id: Uuid, model: string, resId: Option<Uuid>, found: Option<Uuid>)
    | Crash(w: nat)
    | LocalPost(post: Uuid, thread: Option<(string, Uuid)>)

  function Initial(workers: nat): System { System(map[], seq(workers, _ => None), [], []) }

  predicate Enabled(s: System, step: Step) {
    match step
    case Probe(w, messageId, found) => w < |s.pending| && s.pending[w].None? && Probed(s.rows, messageId, found)
    case TurnAway(w, _) => w < |s.pending| && s.pending[w].Some?
    case Insert(w, id, _, _, found) =>
      w < |s.pending| && s.pending[w].Some? && id !in s.rows && Probed(s.rows, s.pending[w].value, found)
    case Crash(w) => w < |s.pending|
    case LocalPost(post, _) => post !in s.rows
  }

  function Next(s: System, step: Step): System
    requires Enabled(s, step)
  {
    match step
    case Probe(w, messageId, found) =>
      if found.Some? then s.(answers := s.answers + [Answer(messageId, Duplicate(found.value))])
      else s.(pending := s.pending[w := Some(messageId)])
    case TurnAway(w, allowed) =>
      s.(pending := s.pending[w := None],
         answers := s.answers + [Answer(s.pending[w].value, if allowed then NoRoute else NotAllowed)])
    case Insert(w, id, model, resId, found) =>
      var messageId := s.pending[w].value;
      var free := s.(pending := s.pending[w := None], rows := Inserted(s.rows, id, Row(messageId, Some(model), resId)));
      if found.None? then
        free.(answers := s.answers + [Answer(messageId, Routed(id, model, resId))], routed := s.routed + [id])
      else free
    case Crash(w) => s.(pending := s.pending[w := None])
    case LocalPost(post, thread) =>
      var row := if thread.Some? then Row(None, Some(thread.value.0), Some(thread.value.1)) else Row(None, None, None);
      s.(rows := s.rows[post := row])
  }

  function Run(s: System, steps: seq<Step>): Option<System> {
    if steps == [] then Some(s)
    else
      var before, step := Run(s, steps[..|steps| - 1]), steps[|steps| - 1];
      if before.Some? && Enabled(before.value, step) then Some(Next(before.value, step)) else None
  }

  /** The rows that answers for this message id say were newly stored. */
  function RoutedFor(answers: seq<Answer>, messageId: Option<string>): seq<Uuid> {
    if answers == [] then []
    else
      var before, last := RoutedFor(answers[..|answers| - 1], messageId), answers[|answers| - 1];
      if last.messageId == messageId && last.outcome.Routed? then before + [last.outcome.row] else before
  }

  function RoutedRows(answers: seq<Answer>): seq<Uuid> {
    if answers == [] then []
    else
      var before, last := RoutedRows(answers[..|answers| - 1]), answers[|answers| - 1];
      if last.outcome.Routed? then before + [last.outcome.row] else before
  }

  ghost predicate OneStory(s: System, messageId: Option<string>) {
    && (forall id: Uuid :: Has(s.rows, messageId, id) ==> RoutedFor(s.answers, messageId) == [id])
    && (!Stored(s.rows, messageId) ==> RoutedFor(s.answers, messageId) == [])
  }

  ghost predicate Inv(s: System) {
    && (forall m: Option<string> :: m.Some? ==> OneStory(s, m))
    && (forall a :: a in s.answers && a.outcome.Duplicate? ==> Has(s.rows, a.messageId, a.outcome.existing))
    && s.routed == RoutedRows(s.answers)
  }

  lemma AnswerStep(answers: seq<Answer>, a: Answer)
    ensures forall m :: RoutedFor(answers + [a], m)
                     == RoutedFor(answers, m) + (if a.messageId == m && a.outcome.Routed? then [a.outcome.row] else [])
    ensures RoutedRows(answers + [a]) ==
      if a.outcome.Routed? then RoutedRows(answers) + [a.outcome.row] else RoutedRows(answers)
  {
  }

  lemma SameRowsSameStory(s: System, t: System, m: Option<string>)
    requires OneStory(s, m) && RoutedFor(t.answers, m) == RoutedFor(s.answers, m)
    requires forall id :: Has(t.rows, m, id) <==> Has(s.rows, m, id)
    ensures OneStory(t, m)
  {
  }

  lemma InsertKeepsInv(s: System, step: Step)
    requires step.Insert? && Enabled(s, step) && Inv(s)
    ensures Inv(Next(s, step))
  {
    var t := Next(s, step);
    if step.found.Some? {
      assert t.rows == s.rows;
      forall n: Option<string> | n.Some?
        ensures OneStory(t, n)
      {
        SameRowsSameStory(s, t, n);
      }
    } else {
      StoreKeepsInv(s, step);
    }
  }

  lemma StoreKeepsInv(s: System, step: Step)
    requires step.Insert? && step.found.None? && Enabled(s, step) && Inv(s)
    ensures Inv(Next(s, step))
  {
    var t, m := Next(s, step), s.pending[step.w].value;
    AnswerStep(s.answers, t.answers[|s.answers|]);
    StoreKeepsHits(s, step);
    forall n: Option<string> | n.Some?
      ensures OneStory(t, n)
    {
      assert OneStory(s, n);
      if n == m {
        StoryBegins(s, t, n, step.id);
      } else {
        SameRowsSameStory(s, t, n);
      }
    }
  }

  lemma StoreKeepsHits(s: System, step: Step)
    requires step.Insert? && step.found.None? && Enabled(s, step)
    ensures forall n, id :: Has(s.rows, n, id) ==> Has(Next(s, step).rows, n, id)
    ensures forall n, id :: Has(Next(s, step).rows, n, id) ==>
      Has(s.rows, n, id) || (id == step.id && n == s.pending[step.w].value)
  {
  }

  lemma StoryBegins(s: System, t: System, m: Option<string>, id: Uuid)
    requires m.Some? && OneStory(s, m) && !Stored(s.rows, m)
    requires Has(t.rows, m, id) && forall x :: Has(t.rows, m, x) ==> x == id || Has(s.rows, m, x)
    requires RoutedFor(t.answers, m) == RoutedFor(s.answers, m) + [id]
    ensures OneStory(t, m)
  {
  }

  lemma StepKeepsInv(s: System, step: Step)
    requires Enabled(s, step) && Inv(s)
    ensures Inv(Next(s, step))
  {
    if step.Insert? {
      InsertKeepsInv(s, step);
    } else {
      var t := Next(s, step);
      if t.answers != s.answers {
        AnswerStep(s.answers, t.answers[|s.answers|]);
      }
      forall m: Option<string> | m.Some?
        ensures OneStory(t, m)
      {
        assert OneStory(s, m);
        SameRowsSameStory(s, t, m);
      }
    }
  }

  lemma {:induction false} RunKeepsInv(s: System, steps: seq<Step>)
    requires Inv(s) && Run(s, steps).Some?
    ensures Inv(Run(s, steps).value)
  {
    if steps != [] {
      RunKeepsInv(s, steps[..|steps| - 1]);
      StepKeepsInv(Run(s, steps[..|steps| - 1]).value, steps[|steps| - 1]);
    }
  }

  // ---- guarantees ----

  /** One row per message id over every run, stored by exactly one delivery; every duplicate
      answer names that row; every row a routed event names was answered as routed. */
  lemma OneRowPerMessageId(workers: nat, steps: seq<Step>, s: System, messageId: string)
    requires Run(Initial(workers), steps) == Some(s)
    ensures forall a, b :: Has(s.rows, Some(messageId), a) && Has(s.rows, Some(messageId), b) ==> a == b
    ensures |RoutedFor(s.answers, Some(messageId))| == if Stored(s.rows, Some(messageId)) then 1 else 0
    ensures forall a :: a in s.answers && a.messageId == Some(messageId) && a.outcome.Duplicate? ==>
      RoutedFor(s.answers, Some(messageId)) == [a.outcome.existing]
    ensures s.routed == RoutedRows(s.answers)
  {
    assert Inv(Initial(workers));
    RunKeepsInv(Initial(workers), steps);
    assert OneStory(s, Some(messageId));
  }

  lemma {:induction false} RowsStay(s: System, steps: seq<Step>, t: System, id: Uuid)
    requires Run(s, steps) == Some(t) && id in s.rows
    ensures id in t.rows && t.rows[id] == s.rows[id]
  {
    if steps != [] {
      RowsStay(s, steps[..|steps| - 1], Run(s, steps[..|steps| - 1]).value, id);
    }
  }

  /** Once a message is stored, whatever happens in between, each later delivery of it is answered
      with that row, and stores and stages nothing. */
  lemma ReplayChangesNothing(workers: nat, steps: seq<Step>, s: System, later: seq<Step>, t: System,
      messageId: string, id: Uuid, step: Step)
    requires Run(Initial(workers), steps) == Some(s) && Has(s.rows, Some(messageId), id)
    requires Run(s, later) == Some(t) && Enabled(t, step)
    requires step.Probe? && step.messageId == Some(messageId)
    ensures Next(t, step) == t.(answers := t.answers + [Answer(Some(messageId), Duplicate(id))])
  {
    RowsStay(s, later, t, id);
    assert Has(t.rows, Some(messageId), id);
    OneStoryLater(workers, steps, s, later, t, messageId);
  }

  lemma OneStoryLater(workers: nat, steps: seq<Step>, s: System, later: seq<Step>, t: System, messageId: string)
    requires Run(Initial(workers), steps) == Some(s) && Run(s, later) == Some(t)
    ensures OneStory(t, Some(messageId))
  {
    assert Inv(Initial(workers));
    RunKeepsInv(Initial(workers), steps);
    RunKeepsInv(s, later);
  }

  /** A delivery that lost the race after a clean probe stores nothing, stages nothing and fails
      without an answer; the relay's retry is then answered with the winner's row. */
  lemma RaceLoserStoresNothing(workers: nat, steps: seq<Step>, s: System, step: Step, messageId: string, id: Uuid)
    requires Run(Initial(workers), steps) == Some(s) && Has(s.rows, Some(messageId), id)
    requires Enabled(s, step) && step.Insert? && s.pending[step.w] == Some(Some(messageId))
    ensures Next(s, step) == s.(pending := s.pending[step.w := None])
    ensures forall retry :: Enabled(Next(s, step), retry) && retry.Probe? && retry.messageId == Some(messageId) ==>
      Next(Next(s, step), retry).answers == s.answers + [Answer(Some(messageId), Duplicate(id))]
  {
    var t := Next(s, step);
    forall retry | Enabled(t, retry) && retry.Probe? && retry.messageId == Some(messageId)
      ensures Next(t, retry).answers == s.answers + [Answer(Some(messageId), Duplicate(id))]
    {
      assert Run(s, [step][..0]) == Some(s) && Run(s, [step]) == Some(t);
      ReplayChangesNothing(workers, steps, s, [step], t, messageId, id, retry);
    }
  }

  /** Without a message id there is no dedup: each delivery that gets as far as its insert
      stores a row of its own, and none is ever answered as a duplicate. */
  lemma NoIdNoDedup(workers: nat, steps: seq<Step>, s: System, step: Step)
    requires Run(Initial(workers), steps) == Some(s)
    requires Enabled(s, step) && step.Insert? && s.pending[step.w] == Some(None)
    ensures forall a :: a in s.answers && a.outcome.Duplicate? ==> a.messageId.Some?
    ensures Next(s, step).rows.Keys == s.rows.Keys + {step.id} && step.id !in s.rows
    ensures Next(s, step).answers == s.answers + [Answer(None, Routed(step.id, step.model, step.resId))]
  {
    assert Inv(Initial(workers));
    RunKeepsInv(Initial(workers), steps);
  }
}
