/** What a client can rely on, over every run of the delivery protocol. */
module Guarantees {
  import opened Prelude
  import opened Events
  import opened Registry
  import opened Delivery
  import opened Places
  import Tailer
  import TailerRuns

  /** Everything a connection is handed, before the allowlist: the replay, then the live feed. */
  function Stream(phase: Phase): seq<TailedEvent>
    requires phase.Streaming?
  {
    phase.replay + phase.live
  }

  /** Where the history after the connection's own watermark starts. */
  ghost function Start(feed: seq<TailedEvent>, steps: seq<Step>, phase: Phase, c: Client): nat
    requires phase.Streaming?
  {
    Resume(feed, phase.pushed0, Opened(steps, c))
  }

  ghost predicate Reaches(feed: seq<TailedEvent>, permits: Permits, steps: seq<Step>, s: System, c: Client) {
    After(feed, permits, steps) == Some(s) && c in s.clients
  }

  function Copies(phase: Phase, event: TailedEvent): nat
    requires phase.Streaming?
  {
    multiset(Stream(phase))[event]
  }

  lemma {:induction false} CopiesInSlice(feed: seq<TailedEvent>, lo: nat, hi: nat, i: nat)
    requires Distinct(Ids(feed)) && lo <= hi <= |feed| && i < |feed|
    ensures multiset(feed[lo..hi])[feed[i]] == if lo <= i < hi then 1 else 0
  {
    if lo < hi {
      CopiesInSlice(feed, lo, hi - 1, i);
      assert feed[lo..hi] == feed[lo..hi - 1] + [feed[hi - 1]];
      assert Ids(feed)[i] == Ids(feed)[hi - 1] ==> i == hi - 1;
    }
  }

  /** The stream is the history after the watermark up to the snapshot, then everything sent since
      the subscription. */
  lemma StreamInTwoParts(feed: seq<TailedEvent>, permits: Permits, steps: seq<Step>, s: System, c: Client)
    requires Distinct(Ids(feed)) && Reaches(feed, permits, steps, s, c)
    requires s.clients[c].phase.Streaming?
    ensures var phase := s.clients[c].phase;
      && Start(feed, steps, phase, c) <= phase.pushed0 <= s.pushed <= |feed|
      && phase.sent0 <= phase.sent1 <= s.sent <= s.pushed && phase.sent0 <= phase.pushed0 <= phase.sent0 + 1
      && phase.replay == feed[Start(feed, steps, phase, c)..phase.pushed0] && phase.live == feed[phase.sent1..s.sent]
  {
    RunKeepsInv(feed, permits, steps);
    ReplayIsOfItsWatermark(feed, permits, steps, s, c);
    assert PhaseOk(feed, s.pushed, s.sent, s.clients[c].phase);
    ReplayIsHistoryAfterWatermark(feed, s.clients[c].phase.pushed0, Opened(steps, c));
  }

  /** Each event is delivered once for the replay range and once for the live range. */
  lemma CopiesDelivered(feed: seq<TailedEvent>, permits: Permits, steps: seq<Step>, s: System, c: Client, i: nat)
    requires Distinct(Ids(feed)) && Reaches(feed, permits, steps, s, c)
    requires s.clients[c].phase.Streaming? && i < |feed|
    ensures var phase := s.clients[c].phase;
      Copies(phase, feed[i])
      == (if Start(feed, steps, phase, c) <= i < phase.pushed0 then 1 else 0)
         + (if phase.sent1 <= i < s.sent then 1 else 0)
  {
    StreamInTwoParts(feed, permits, steps, s, c);
    var phase := s.clients[c].phase;
    CopiesInSlice(feed, Start(feed, steps, phase, c), phase.pushed0, i);
    CopiesInSlice(feed, phase.sent1, s.sent, i);
  }

  /** Between snapshot and subscription exactly the pushes then in flight were sent. */
  predicate CleanHandover(phase: Phase)
    requires phase.Streaming?
  {
    phase.sent1 == phase.pushed0
  }

  /** The exact condition for the claim that snapshot-then-subscribe neither repeats nor drops:
      the stream is the publish history after the watermark, once each and in order, if and
      only if the handover was clean (or the in-flight event has still not been sent). The
      history starts right behind the watermark while the ring of 4096 holds it, else at the
      oldest event of the ring. */
  lemma StreamIsHistoryIffCleanHandover(
      feed: seq<TailedEvent>, permits: Permits, steps: seq<Step>, s: System, c: Client)
    requires Distinct(Ids(feed)) && Reaches(feed, permits, steps, s, c)
    requires s.clients[c].phase.Streaming?
    ensures var phase, start := s.clients[c].phase, Start(feed, steps, s.clients[c].phase, c);
      && start <= Max(s.sent, phase.pushed0) <= |feed|
      && (Stream(phase) == feed[start..Max(s.sent, phase.pushed0)] <==> CleanHandover(phase) || s.sent < phase.pushed0)
      && StartsBehind(feed, phase.pushed0, Opened(steps, c), start)
  {
    StreamInTwoParts(feed, permits, steps, s, c);
    var phase, start := s.clients[c].phase, Start(feed, steps, s.clients[c].phase, c);
    StartIsBehind(feed, phase.pushed0, Opened(steps, c));
    var history := feed[start..Max(s.sent, phase.pushed0)];
    if CleanHandover(phase) {
      assert Stream(phase) == history;
    } else if s.sent < phase.pushed0 {
      assert phase.live == [];
      assert Stream(phase) == history;
    } else {
      assert |Stream(phase)| != |history|;
    }
  }

  /** `start` is right behind the watermark's event when that is among the last 4096 of the `pushed`
      events, and the oldest of those otherwise. */
  predicate StartsBehind(feed: seq<TailedEvent>, pushed: nat, watermark: Option<Uuid>, start: nat) {
    var oldest := Max(0, pushed - 4096);
    && pushed <= |feed|
    && (forall i :: oldest <= i < pushed && watermark == Some(feed[i].id) ==> start == i + 1)
    && ((forall i :: oldest <= i < pushed ==> watermark != Some(feed[i].id)) ==> start == oldest)
  }

  lemma StartIsBehind(feed: seq<TailedEvent>, pushed: nat, watermark: Option<Uuid>)
    requires Distinct(Ids(feed)) && pushed <= |feed|
    ensures StartsBehind(feed, pushed, watermark, Resume(feed, pushed, watermark))
  {
    forall i | Max(0, pushed - 4096) <= i < pushed && watermark == Some(feed[i].id)
      ensures Resume(feed, pushed, watermark) == i + 1
    {
      assert HeldAt(feed, pushed, watermark, i);
      ResumeIsBehindTheWatermark(feed, pushed, watermark, i);
    }
  }

  predicate LastReplayIsFirstLive(phase: Phase, event: TailedEvent)
    requires phase.Streaming?
  {
    && phase.replay != [] && phase.replay[|phase.replay| - 1] == event
    && phase.live != [] && phase.live[0] == event
  }

  /** Outside the condition, for every event sent so far. Of the history after the watermark, at most
      one event comes twice (last of the replay, first live), the missed events are exactly those
      pushed after the snapshot and sent before the subscription, and no connection has both.
      Of what lies before, only the watermark's own event can come again, when it was in flight. */
  lemma RepeatsAndMisses(feed: seq<TailedEvent>, permits: Permits, steps: seq<Step>, s: System, c: Client, i: nat)
    requires Distinct(Ids(feed)) && Reaches(feed, permits, steps, s, c)
    requires s.clients[c].phase.Streaming? && i < s.sent <= |feed|
    ensures var phase, start := s.clients[c].phase, Start(feed, steps, s.clients[c].phase, c);
      && StartsBehind(feed, phase.pushed0, Opened(steps, c), start)
      && (Copies(phase, feed[i]) <= 2)
      && (Copies(phase, feed[i]) == 2 <==> start <= i == phase.sent1 == phase.pushed0 - 1)
      && (Copies(phase, feed[i]) == 2 ==> LastReplayIsFirstLive(phase, feed[i]))
      && (i >= start ==> (Copies(phase, feed[i]) == 0 <==> phase.pushed0 <= i < phase.sent1))
      && (Copies(phase, feed[i]) == 2 ==> forall j: nat :: start <= j < s.sent ==> Copies(phase, feed[j]) >= 1)
      && (i < start ==> (Copies(phase, feed[i]) == 1 <==> i == phase.sent1 == phase.pushed0 - 1))
      && (i < start && Copies(phase, feed[i]) == 1 ==> Opened(steps, c) == Some(feed[i].id))
  {
    var phase, start := s.clients[c].phase, Start(feed, steps, s.clients[c].phase, c);
    HandoverBounds(feed, permits, steps, s, c);
    StartIsBehind(feed, phase.pushed0, Opened(steps, c));
    CopiesDelivered(feed, permits, steps, s, c, i);
    if start <= i == phase.sent1 == phase.pushed0 - 1 {
      RepeatIsAtTheSeam(feed, permits, steps, s, c, i);
      NothingMissedWhenRepeated(feed, permits, steps, s, c);
    }
    if i < start {
      BeforeTheStart(feed, permits, steps, s, c, i);
    }
  }

  lemma HandoverBounds(feed: seq<TailedEvent>, permits: Permits, steps: seq<Step>, s: System, c: Client)
    requires Distinct(Ids(feed)) && Reaches(feed, permits, steps, s, c)
    requires s.clients[c].phase.Streaming?
    ensures var phase := s.clients[c].phase;
      && Start(feed, steps, phase, c) <= phase.pushed0 <= |feed|
      && phase.sent1 <= s.sent && phase.pushed0 <= phase.sent1 + 1
  {
    StreamInTwoParts(feed, permits, steps, s, c);
  }

  lemma RepeatIsAtTheSeam(
      feed: seq<TailedEvent>, permits: Permits, steps: seq<Step>, s: System, c: Client, i: nat)
    requires Distinct(Ids(feed)) && Reaches(feed, permits, steps, s, c)
    requires s.clients[c].phase.Streaming? && i < s.sent <= |feed|
    requires var phase := s.clients[c].phase; Start(feed, steps, phase, c) <= i == phase.sent1 == phase.pushed0 - 1
    ensures LastReplayIsFirstLive(s.clients[c].phase, feed[i])
  {
    StreamInTwoParts(feed, permits, steps, s, c);
  }

  /** Of what lies before the start, only the watermark's own event can come again, when it was in
      flight at the snapshot and sent after the subscription. */
  lemma BeforeTheStart(feed: seq<TailedEvent>, permits: Permits, steps: seq<Step>, s: System, c: Client, i: nat)
    requires Distinct(Ids(feed)) && Reaches(feed, permits, steps, s, c)
    requires s.clients[c].phase.Streaming? && i < s.sent <= |feed|
    requires i < Start(feed, steps, s.clients[c].phase, c)
    ensures var phase := s.clients[c].phase;
      && (Copies(phase, feed[i]) == 1 <==> i == phase.sent1 == phase.pushed0 - 1)
      && (Copies(phase, feed[i]) == 1 ==> Opened(steps, c) == Some(feed[i].id))
  {
    var phase, start := s.clients[c].phase, Start(feed, steps, s.clients[c].phase, c);
    StreamInTwoParts(feed, permits, steps, s, c);
    StartIsBehind(feed, phase.pushed0, Opened(steps, c));
    CopiesDelivered(feed, permits, steps, s, c, i);
    if Copies(phase, feed[i]) == 1 {
      assert start == phase.pushed0;
    }
  }

  /** A connection that saw its in-flight event again missed nothing. */
  lemma NothingMissedWhenRepeated(
      feed: seq<TailedEvent>, permits: Permits, steps: seq<Step>, s: System, c: Client)
    requires Distinct(Ids(feed)) && Reaches(feed, permits, steps, s, c)
    requires s.clients[c].phase.Streaming? && s.sent <= |feed|
    requires s.clients[c].phase.sent1 < s.clients[c].phase.pushed0
    ensures var phase := s.clients[c].phase;
      forall j: nat :: Start(feed, steps, phase, c) <= j < s.sent ==> Copies(phase, feed[j]) >= 1
  {
    var phase := s.clients[c].phase;
    forall j: nat | Start(feed, steps, phase, c) <= j < s.sent
      ensures Copies(phase, feed[j]) >= 1
    {
      CopiesDelivered(feed, permits, steps, s, c, j);
    }
  }

  /** The client has the permitted part of the feed from where it joined, less what the ring had
      dropped by then, up to where it has got; that is everything sent once its connection has
      nothing left to forward. */
  ghost predicate Complete(feed: seq<TailedEvent>, permits: Permits, steps: seq<Step>, s: System, c: Client)
    requires Reaches(feed, permits, steps, s, c)
  {
    var from, upTo := Max(0, Joined(feed, permits, steps, c) - 4096), UpTo(feed, permits, steps, c);
    var state := s.clients[c];
    && Joined(feed, permits, steps, c) <= s.pushed
    && from <= upTo <= |feed|
    && state.received == Filter(Allowlist(permits, c), feed[from..upTo])
    && Distinct(state.received)
    && (state.phase.Streaming? && state.phase.taken == |Stream(state.phase)| ==> upTo == s.sent)
  }

  /** Over all its connections, a client whose snapshots kept their place and whose handovers were
      clean has received exactly the permitted events of the history from where it joined: no gap,
      no repeat. That is the whole history when it joined before more than 4096 events had
      been published, and otherwise all but the events the ring had dropped by then. It is up to
      date when its connection has nothing left to forward. */
  lemma ReconnectsLeaveNoGapNoRepeat(
      feed: seq<TailedEvent>, permits: Permits, steps: seq<Step>, s: System, c: Client)
    requires Distinct(Ids(feed)) && Reaches(feed, permits, steps, s, c)
    requires Orderly(feed, permits, steps, c)
    ensures Complete(feed, permits, steps, s, c)
  {
    OrderlyIsExact(feed, permits, steps, s, c);
    JoinedIsPast(feed, permits, steps, s, c);
    var from, upTo := RingStart(Joined(feed, permits, steps, c)), UpTo(feed, permits, steps, c);
    StretchIsDistinct(feed, Allowlist(permits, c), from, upTo);
    if s.clients[c].phase.Streaming? {
      NothingLeftMeansUpToDate(feed, permits, steps, s, c, upTo);
    }
  }

  lemma StretchIsDistinct(feed: seq<TailedEvent>, permits: TailedEvent -> bool, from: nat, upTo: nat)
    requires Distinct(Ids(feed)) && from <= upTo <= |feed|
    ensures Distinct(Filter(permits, feed[from..upTo]))
  {
    var stretch := feed[from..upTo];
    forall x, y | 0 <= x < y < |stretch|
      ensures stretch[x] != stretch[y]
    {
      assert Ids(feed)[from + x] != Ids(feed)[from + y];
    }
    FilterDistinct(permits, stretch);
  }

  lemma NothingLeftMeansUpToDate(
      feed: seq<TailedEvent>, permits: Permits, steps: seq<Step>, s: System, c: Client, upTo: nat)
    requires Distinct(Ids(feed)) && Reaches(feed, permits, steps, s, c)
    requires s.clients[c].phase.Streaming? && AtPlace(s.clients[c].phase, upTo)
    ensures s.clients[c].phase.taken == |Stream(s.clients[c].phase)| ==> upTo == s.sent
  {
    StreamInTwoParts(feed, permits, steps, s, c);
  }

  /** Within the first 4096 events an orderly client with nothing left to forward has received the
      permitted part of everything sent so far. */
  lemma WholeHistoryIsReceived(
      feed: seq<TailedEvent>, permits: Permits, steps: seq<Step>, s: System, c: Client)
    requires Distinct(Ids(feed)) && Reaches(feed, permits, steps, s, c)
    requires Orderly(feed, permits, steps, c) && s.pushed <= 4096
    requires var phase := s.clients[c].phase; phase.Streaming? && phase.taken == |Stream(phase)|
    ensures s.sent <= |feed| && s.clients[c].received == Filter(Allowlist(permits, c), feed[..s.sent])
  {
    ReconnectsLeaveNoGapNoRepeat(feed, permits, steps, s, c);
    assert feed[0..s.sent] == feed[..s.sent];
  }

  lemma OneMore(feed: seq<TailedEvent>, permits: Permits, steps: seq<Step>, s: System, step: Step)
      returns (steps': seq<Step>, s': System)
    requires After(feed, permits, steps) == Some(s) && Enabled(feed, s, step)
    ensures steps' == steps + [step] && s' == Apply(feed, permits, s, step)
    ensures After(feed, permits, steps') == Some(s')
    ensures forall c :: Opened(steps', c) == if step.Snapshot? && step.c == c then step.watermark else Opened(steps, c)
  {
    steps', s' := steps + [step], Apply(feed, permits, s, step);
    assert steps'[..|steps|] == steps;
  }

  /** A push in flight at the snapshot and sent after the subscription is delivered twice. */
  lemma DoubleDeliveryIsReachable(feed: seq<TailedEvent>, permits: Permits, c: Client)
      returns (run: seq<Step>, s: System)
    requires |feed| >= 1
    ensures Reaches(feed, permits, run, s, c) && s.clients[c].phase.Streaming?
    ensures Stream(s.clients[c].phase) == [feed[0], feed[0]]
  {
    run, s := OneMore(feed, permits, [], INITIAL, Push);
    assert feed[..1] == [feed[0]];
    run, s := OneMore(feed, permits, run, s, Snapshot(c, None));
    run, s := OneMore(feed, permits, run, s, Subscribe(c));
    run, s := OneMore(feed, permits, run, s, Send);
  }

  /** A publish that falls between the snapshot and the subscription is never delivered. */
  lemma LostEventIsReachable(feed: seq<TailedEvent>, permits: Permits, c: Client)
      returns (run: seq<Step>, s: System)
    requires |feed| >= 1
    ensures Reaches(feed, permits, run, s, c) && s.clients[c].phase.Streaming?
    ensures s.sent == 1 && Start(feed, run, s.clients[c].phase, c) == 0 && Stream(s.clients[c].phase) == []
  {
    assert feed[..0] == [];
    run, s := OneMore(feed, permits, [], INITIAL, Snapshot(c, None));
    run, s := OneMore(feed, permits, run, s, Push);
    run, s := OneMore(feed, permits, run, s, Send);
    run, s := OneMore(feed, permits, run, s, Subscribe(c));
    NoWatermark(feed, 0);
  }

  /** The event is the one the outbox row with its id carries. */
  predicate FromOutbox(outbox: map<Uuid, Tailer.Row>, e: TailedEvent) {
    e.id in outbox && Tailer.ExtractEvent(outbox[e.id]) == Some(e)
  }

  /** From outbox to client: with safe clocks, an orderly client has received, without repeats, the
      permitted part of the publish log from where it joined, each event that of an outbox row. */
  lemma OutboxToClient(
      polls: seq<TailerRuns.Poll>, outbox: map<Uuid, Tailer.Row>, window: nat,
      permits: Permits, steps: seq<Step>, s: System, c: Client)
    requires TailerRuns.Observed(polls, outbox, window)
    requires TailerRuns.SafeClocks(TailerRuns.Clocks(polls))
    requires Reaches(TailerRuns.Log(polls, window), permits, steps, s, c)
    requires Orderly(TailerRuns.Log(polls, window), permits, steps, c)
    ensures Complete(TailerRuns.Log(polls, window), permits, steps, s, c)
    ensures forall e :: e in s.clients[c].received ==> FromOutbox(outbox, e)
  {
    TailerRuns.NeverPublishedTwice(polls, outbox, window);
    LogIsFromOutbox(polls, outbox, window);
    FeedToClient(TailerRuns.Log(polls, window), outbox, permits, steps, s, c);
  }

  lemma FeedToClient(
      feed: seq<TailedEvent>, outbox: map<Uuid, Tailer.Row>, permits: Permits, steps: seq<Step>, s: System, c: Client)
    requires Distinct(Ids(feed)) && forall e :: e in feed ==> FromOutbox(outbox, e)
    requires Reaches(feed, permits, steps, s, c) && Orderly(feed, permits, steps, c)
    ensures Complete(feed, permits, steps, s, c)
    ensures forall e :: e in s.clients[c].received ==> FromOutbox(outbox, e)
  {
    ReconnectsLeaveNoGapNoRepeat(feed, permits, steps, s, c);
    var from, upTo := Max(0, Joined(feed, permits, steps, c) - 4096), UpTo(feed, permits, steps, c);
    FilteredIsPart(Allowlist(permits, c), feed, from, upTo);
  }

  lemma FilteredIsPart(permits: TailedEvent -> bool, feed: seq<TailedEvent>, from: nat, upTo: nat)
    requires from <= upTo <= |feed|
    ensures forall e :: e in Filter(permits, feed[from..upTo]) ==> e in feed
  {
  }

  lemma LogIsFromOutbox(polls: seq<TailerRuns.Poll>, outbox: map<Uuid, Tailer.Row>, window: nat)
    requires TailerRuns.Observed(polls, outbox, window)
    ensures forall e :: e in TailerRuns.Log(polls, window) ==> FromOutbox(outbox, e)
  {
    forall e | e in TailerRuns.Log(polls, window)
      ensures FromOutbox(outbox, e)
    {
      TailerRuns.PublishedComesFromOutbox(polls, outbox, window, e);
    }
  }
}
