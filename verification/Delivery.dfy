/** The delivery protocol: one tailer publishing in two steps, any number of clients that
    snapshot, subscribe, forward, vanish and come back (src/realtime/registry.rs, src/realtime/sse.rs).
    `feed` is the sequence of events the tailer publishes; its ids are distinct. */
module Delivery {
  import opened Prelude
  import opened Events
  import opened Registry

  type Client = nat
  type Permits = (Client, TailedEvent) -> bool

  /** The allowlist one client's events are put through. */
  function Allowlist(permits: Permits, c: Client): TailedEvent -> bool { e => permits(c, e) }

  /** A connection remembers how many events had been pushed and sent when it took its
      snapshot, and how many had been sent when it subscribed. `taken` events of
      `replay + live` have gone through the allowlist. */
  datatype Phase =
    | Offline
    | Snapshotted(replay: seq<TailedEvent>, pushed0: nat, sent0: nat)
    | Streaming(replay: seq<TailedEvent>, pushed0: nat, sent0: nat, sent1: nat, live: seq<TailedEvent>, taken: nat)

  /** `received` spans all connections of the client. */
  datatype ClientState = ClientState(phase: Phase, received: seq<TailedEvent>)

  datatype System = System(pushed: nat, sent: nat, clients: map<Client, ClientState>)

  datatype Step =
    | Push
    | Send
    | Snapshot(c: Client, watermark: Option<Uuid>)
    | Subscribe(c: Client)
    | Forward(c: Client)
    | Disconnect(c: Client)

  const NEWCOMER := ClientState(Offline, [])
  const INITIAL := System(0, 0, map[])

  function StateOf(s: System, c: Client): ClientState {
    if c in s.clients then s.clients[c] else NEWCOMER
  }

  function Ring(feed: seq<TailedEvent>, pushed: nat): seq<TailedEvent>
    requires pushed <= |feed|
  {
    LastUpTo(feed[..pushed], RING_CAPACITY)
  }

  /** The single tailer pushes the next event only after the last send returned. */
  predicate Enabled(feed: seq<TailedEvent>, s: System, step: Step) {
    && s.sent <= s.pushed <= |feed|
    && match step
       case Push => s.pushed == s.sent < |feed|
       case Send => s.sent < s.pushed
       case Snapshot(c, _) => StateOf(s, c).phase.Offline?
       case Subscribe(c) => StateOf(s, c).phase.Snapshotted?
       case Forward(c) =>
         var phase := StateOf(s, c).phase;
         phase.Streaming? && phase.taken < |phase.replay| + |phase.live|
       case Disconnect(c) => !StateOf(s, c).phase.Offline?
  }

  function Hear(state: ClientState, event: TailedEvent): ClientState {
    if state.phase.Streaming? then state.(phase := state.phase.(live := state.phase.live + [event])) else state
  }

  function AfterSnapshot(
      feed: seq<TailedEvent>, s: System, state: ClientState, watermark: Option<Uuid>): ClientState
    requires s.pushed <= |feed|
  {
    state.(phase := Snapshotted(Replay(Ring(feed, s.pushed), watermark), s.pushed, s.sent))
  }

  function AfterSubscribe(s: System, state: ClientState): ClientState
    requires state.phase.Snapshotted?
  {
    state.(phase := Streaming(state.phase.replay, state.phase.pushed0, state.phase.sent0, s.sent, [], 0))
  }

  function AfterForward(permits: TailedEvent -> bool, state: ClientState): ClientState
    requires state.phase.Streaming? && state.phase.taken < |state.phase.replay| + |state.phase.live|
  {
    var event := (state.phase.replay + state.phase.live)[state.phase.taken];
    state.(
      phase := state.phase.(taken := state.phase.taken + 1),
      received := if permits(event) then state.received + [event] else state.received)
  }

  function Apply(feed: seq<TailedEvent>, permits: Permits, s: System, step: Step): System
    requires Enabled(feed, s, step)
  {
    match step
    case Push => s.(pushed := s.pushed + 1)
    case Send =>
      s.(sent := s.sent + 1, clients := map c | c in s.clients :: Hear(s.clients[c], feed[s.sent]))
    case Snapshot(c, watermark) =>
      s.(clients := s.clients[c := AfterSnapshot(feed, s, StateOf(s, c), watermark)])
    case Subscribe(c) =>
      s.(clients := s.clients[c := AfterSubscribe(s, StateOf(s, c))])
    case Forward(c) =>
      s.(clients := s.clients[c := AfterForward(Allowlist(permits, c), StateOf(s, c))])
    case Disconnect(c) =>
      s.(clients := s.clients[c := StateOf(s, c).(phase := Offline)])
  }

  /** The state a run reaches, or nothing when some step was not enabled. */
  function After(feed: seq<TailedEvent>, permits: Permits, steps: seq<Step>): Option<System> {
    if steps == [] then Some(INITIAL)
    else
      var before, step := After(feed, permits, steps[..|steps| - 1]), steps[|steps| - 1];
      if before.Some? && Enabled(feed, before.value, step)
      then Some(Apply(feed, permits, before.value, step)) else None
  }

  // ---- what every step keeps ----

  predicate ReplayOk(feed: seq<TailedEvent>, replay: seq<TailedEvent>, pushed0: nat, sent0: nat) {
    pushed0 <= |feed| && |replay| <= pushed0 && replay == feed[pushed0 - |replay|..pushed0]
    && sent0 <= pushed0 <= sent0 + 1
  }

  ghost predicate PhaseOk(feed: seq<TailedEvent>, pushed: nat, sent: nat, phase: Phase)
    requires sent <= |feed|
  {
    match phase
    case Offline => true
    case Snapshotted(replay, pushed0, sent0) =>
      ReplayOk(feed, replay, pushed0, sent0) && pushed0 <= pushed && sent0 <= sent
    case Streaming(replay, pushed0, sent0, sent1, live, taken) =>
      ReplayOk(feed, replay, pushed0, sent0) && pushed0 <= pushed && sent0 <= sent1 <= sent
      && live == feed[sent1..sent] && taken <= |replay| + |live|
  }

  ghost predicate Inv(feed: seq<TailedEvent>, s: System) {
    && s.sent <= s.pushed <= |feed| && s.pushed <= s.sent + 1
    && forall c :: c in s.clients ==> PhaseOk(feed, s.pushed, s.sent, s.clients[c].phase)
  }

  lemma RingIsTail(feed: seq<TailedEvent>, pushed: nat, watermark: Option<Uuid>)
    requires pushed <= |feed|
    ensures var replay := Replay(Ring(feed, pushed), watermark);
      |replay| <= pushed && replay == feed[pushed - |replay|..pushed]
  {
  }

  lemma SendKeepsPhase(feed: seq<TailedEvent>, pushed: nat, sent: nat, state: ClientState)
    requires sent < pushed <= |feed| && PhaseOk(feed, pushed, sent, state.phase)
    ensures PhaseOk(feed, pushed, sent + 1, Hear(state, feed[sent]).phase)
  {
    if state.phase.Streaming? {
      assert feed[state.phase.sent1..sent + 1] == feed[state.phase.sent1..sent] + [feed[sent]];
    }
  }

  lemma SnapshotIsOk(feed: seq<TailedEvent>, s: System, state: ClientState, watermark: Option<Uuid>)
    requires s.sent <= s.pushed <= |feed| && s.pushed <= s.sent + 1
    ensures PhaseOk(feed, s.pushed, s.sent, AfterSnapshot(feed, s, state, watermark).phase)
  {
    RingIsTail(feed, s.pushed, watermark);
  }

  lemma ForwardIsOk(feed: seq<TailedEvent>, s: System, permits: TailedEvent -> bool, state: ClientState)
    requires s.sent <= |feed| && PhaseOk(feed, s.pushed, s.sent, state.phase)
    requires state.phase.Streaming? && state.phase.taken < |state.phase.replay| + |state.phase.live|
    ensures PhaseOk(feed, s.pushed, s.sent, AfterForward(permits, state).phase)
  {
  }

  lemma OneClientMoves(feed: seq<TailedEvent>, s: System, c: Client, state: ClientState)
    requires Inv(feed, s) && PhaseOk(feed, s.pushed, s.sent, state.phase)
    ensures Inv(feed, s.(clients := s.clients[c := state]))
  {
  }

  lemma SendKeepsInv(feed: seq<TailedEvent>, permits: Permits, s: System)
    requires Inv(feed, s) && Enabled(feed, s, Send)
    ensures Inv(feed, Apply(feed, permits, s, Send))
  {
    forall c | c in s.clients
      ensures PhaseOk(feed, s.pushed, s.sent + 1, Hear(s.clients[c], feed[s.sent]).phase)
    {
      SendKeepsPhase(feed, s.pushed, s.sent, s.clients[c]);
    }
  }

  lemma StepKeepsInv(feed: seq<TailedEvent>, permits: Permits, s: System, step: Step)
    requires Inv(feed, s) && Enabled(feed, s, step)
    ensures Inv(feed, Apply(feed, permits, s, step))
  {
    match step
    case Push =>
    case Send => SendKeepsInv(feed, permits, s);
    case Snapshot(c, watermark) =>
      SnapshotIsOk(feed, s, StateOf(s, c), watermark);
      OneClientMoves(feed, s, c, AfterSnapshot(feed, s, StateOf(s, c), watermark));
    case Subscribe(c) =>
      OneClientMoves(feed, s, c, AfterSubscribe(s, StateOf(s, c)));
    case Forward(c) =>
      ForwardIsOk(feed, s, Allowlist(permits, c), StateOf(s, c));
      OneClientMoves(feed, s, c, AfterForward(Allowlist(permits, c), StateOf(s, c)));
    case Disconnect(c) =>
      OneClientMoves(feed, s, c, StateOf(s, c).(phase := Offline));
  }

  /** Every replay and every live part is a contiguous slice of the history, over every run. */
  lemma {:induction false} RunKeepsInv(feed: seq<TailedEvent>, permits: Permits, steps: seq<Step>)
    requires After(feed, permits, steps).Some?
    ensures Inv(feed, After(feed, permits, steps).value)
  {
    if steps != [] {
      RunKeepsInv(feed, permits, steps[..|steps| - 1]);
      StepKeepsInv(feed, permits, After(feed, permits, steps[..|steps| - 1]).value, steps[|steps| - 1]);
    }
  }

  // ---- where a replay starts ----

  /** The oldest feed position the ring still holds once `pushed` events went through it. */
  function RingStart(pushed: nat): nat {
    if pushed <= RING_CAPACITY then 0 else pushed - RING_CAPACITY
  }

  /** The watermark is the id of the event at position `i`, and the ring still holds that event. */
  predicate HeldAt(feed: seq<TailedEvent>, pushed: nat, watermark: Option<Uuid>, i: int) {
    RingStart(pushed) <= i < pushed <= |feed| && watermark == Some(feed[i].id)
  }

  /** Where the history after a watermark starts: right behind the watermark's event while the ring
      holds it, else (absent, forged, evicted) at the oldest event of the ring. */
  ghost function Resume(feed: seq<TailedEvent>, pushed: nat, watermark: Option<Uuid>): nat {
    if exists i :: HeldAt(feed, pushed, watermark, i)
    then (var i :| HeldAt(feed, pushed, watermark, i); i + 1)
    else RingStart(pushed)
  }

  lemma ResumeIsBehindTheWatermark(feed: seq<TailedEvent>, pushed: nat, watermark: Option<Uuid>, i: int)
    requires Distinct(Ids(feed)) && HeldAt(feed, pushed, watermark, i)
    ensures Resume(feed, pushed, watermark) == i + 1
  {
    var j :| HeldAt(feed, pushed, watermark, j) && Resume(feed, pushed, watermark) == j + 1;
    assert HeldAt(feed, pushed, watermark, j);
    assert Ids(feed)[i] == Ids(feed)[j];
  }

  lemma HeldIsInRing(feed: seq<TailedEvent>, pushed: nat, watermark: Option<Uuid>, i: int)
    requires HeldAt(feed, pushed, watermark, i)
    ensures watermark.Some? && Holds(Ring(feed, pushed), watermark.value)
  {
    RingAt(feed, pushed);
    assert Ring(feed, pushed)[i - RingStart(pushed)] == feed[i];
  }

  lemma RingAt(feed: seq<TailedEvent>, pushed: nat)
    requires pushed <= |feed|
    ensures Ring(feed, pushed) == feed[RingStart(pushed)..pushed]
  {
  }

  /** What the registry replays for a watermark is the history from where it resumes. */
  lemma ReplayIsHistoryAfterWatermark(feed: seq<TailedEvent>, pushed: nat, watermark: Option<Uuid>)
    requires Distinct(Ids(feed)) && pushed <= |feed|
    ensures Resume(feed, pushed, watermark) <= pushed
    ensures Replay(Ring(feed, pushed), watermark) == feed[Resume(feed, pushed, watermark)..pushed]
  {
    RingAt(feed, pushed);
    if watermark.Some? && Holds(Ring(feed, pushed), watermark.value) {
      ReplayOfHeld(feed, pushed, watermark.value);
    } else {
      forall i
        ensures !HeldAt(feed, pushed, watermark, i)
      {
        if HeldAt(feed, pushed, watermark, i) {
          HeldIsInRing(feed, pushed, watermark, i);
        }
      }
    }
  }

  lemma ReplayOfHeld(feed: seq<TailedEvent>, pushed: nat, id: Uuid)
    requires Distinct(Ids(feed)) && pushed <= |feed| && Holds(Ring(feed, pushed), id)
    ensures Resume(feed, pushed, Some(id)) <= pushed
    ensures Replay(Ring(feed, pushed), Some(id)) == feed[Resume(feed, pushed, Some(id))..pushed]
  {
    RingAt(feed, pushed);
    var oldest, k := RingStart(pushed), Position(Ring(feed, pushed), id);
    assert Ring(feed, pushed)[k] == feed[oldest + k];
    assert HeldAt(feed, pushed, Some(id), oldest + k);
    ResumeIsBehindTheWatermark(feed, pushed, Some(id), oldest + k);
    SliceOfSlice(feed, oldest, pushed, k + 1);
  }

  lemma SliceOfSlice(feed: seq<TailedEvent>, lo: nat, hi: nat, k: nat)
    requires lo + k <= hi <= |feed|
    ensures feed[lo..hi][k..] == feed[lo + k..hi]
  {
  }

  /** The watermark of the client's latest snapshot. */
  function Opened(steps: seq<Step>, c: Client): Option<Uuid> {
    if steps == [] then None
    else
      var last := steps[|steps| - 1];
      if last.Snapshot? && last.c == c then last.watermark else Opened(steps[..|steps| - 1], c)
  }

  /** Over every run, a connection's replay is the one for the watermark it was opened with, taken
      from the ring of the moment of its snapshot. */
  lemma {:induction false} ReplayIsOfItsWatermark(
      feed: seq<TailedEvent>, permits: Permits, steps: seq<Step>, s: System, c: Client)
    requires After(feed, permits, steps) == Some(s) && c in s.clients
    requires !s.clients[c].phase.Offline?
    ensures var phase := s.clients[c].phase;
      phase.pushed0 <= |feed| && phase.replay == Replay(Ring(feed, phase.pushed0), Opened(steps, c))
  {
    var init, last := steps[..|steps| - 1], steps[|steps| - 1];
    var before := After(feed, permits, init).value;
    if last.Snapshot? && last.c == c {
    } else {
      ReplayStays(feed, permits, before, last, c);
      ReplayIsOfItsWatermark(feed, permits, init, before, c);
    }
  }

  lemma ReplayStays(feed: seq<TailedEvent>, permits: Permits, s: System, step: Step, c: Client)
    requires Enabled(feed, s, step) && !(step.Snapshot? && step.c == c)
    requires !StateOf(Apply(feed, permits, s, step), c).phase.Offline?
    ensures c in s.clients && !s.clients[c].phase.Offline?
    ensures var after := StateOf(Apply(feed, permits, s, step), c).phase;
      after.replay == s.clients[c].phase.replay && after.pushed0 == s.clients[c].phase.pushed0
  {
  }
}
