/** Clients that keep their place: what a run must look like, and the stretch of the history such a
    client has received (src/realtime/registry.rs, src/realtime/sse.rs). */
module Places {
  import opened Prelude
  import opened Events
  import opened Registry
  import opened Delivery

  /** The watermark an honest client presents: the id of the last event it received. */
  function LastReceived(received: seq<TailedEvent>): Option<Uuid> {
    if received == [] then None else Some(received[|received| - 1].id)
  }

  /** The snapshot keeps the client's place: nothing was received yet, or the last id is still in
      the ring. */
  predicate KeepsPlace(ring: seq<TailedEvent>, received: seq<TailedEvent>, watermark: Option<Uuid>) {
    watermark == LastReceived(received) && (watermark.Some? ==> Holds(ring, watermark.value))
  }

  /** No publish falls between snapshot and subscription, and none is in flight. */
  predicate OrderlyStep(feed: seq<TailedEvent>, s: System, step: Step, c: Client)
    requires Enabled(feed, s, step)
  {
    match step
    case Snapshot(d, w) => d == c ==> KeepsPlace(Ring(feed, s.pushed), StateOf(s, c).received, w)
    case Subscribe(d) => d == c ==> s.sent == StateOf(s, c).phase.pushed0
    case _ => true
  }

  /** Every connection of the client kept its place and had a clean handover. */
  predicate Orderly(feed: seq<TailedEvent>, permits: Permits, steps: seq<Step>, c: Client)
    requires After(feed, permits, steps).Some?
  {
    steps == []
    || (var init, last := steps[..|steps| - 1], steps[|steps| - 1];
        Orderly(feed, permits, init, c) && OrderlyStep(feed, After(feed, permits, init).value, last, c))
  }

  function JoinedAfter(s: System, step: Step, c: Client, joined: nat): nat {
    if step.Snapshot? && step.c == c && StateOf(s, c).received == [] then s.pushed else joined
  }

  ghost function UpToAfter(feed: seq<TailedEvent>, s: System, step: Step, c: Client, upTo: nat): nat {
    match step
    case Snapshot(d, w) => if d == c then Resume(feed, s.pushed, w) else upTo
    case Forward(d) => if d == c then upTo + 1 else upTo
    case _ => upTo
  }

  /** How many events had been pushed when the client last opened a connection with nothing
      received so far. */
  function Joined(feed: seq<TailedEvent>, permits: Permits, steps: seq<Step>, c: Client): nat
    requires After(feed, permits, steps).Some?
  {
    if steps == [] then 0
    else
      var init, last := steps[..|steps| - 1], steps[|steps| - 1];
      JoinedAfter(After(feed, permits, init).value, last, c, Joined(feed, permits, init, c))
  }

  /** The feed position the client has got to: set by each snapshot to where its watermark resumes,
      moved by each event handed to the allowlist. */
  ghost function UpTo(feed: seq<TailedEvent>, permits: Permits, steps: seq<Step>, c: Client): nat
    requires After(feed, permits, steps).Some?
  {
    if steps == [] then 0
    else
      var init, last := steps[..|steps| - 1], steps[|steps| - 1];
      UpToAfter(feed, After(feed, permits, init).value, last, c, UpTo(feed, permits, init, c))
  }

  /** The position `upTo` is the one the connection is at. */
  predicate AtPlace(phase: Phase, upTo: int) {
    match phase
    case Offline => true
    case Snapshotted(replay, pushed0, _) => upTo == pushed0 - |replay|
    case Streaming(replay, pushed0, _, sent1, _, taken) => pushed0 == sent1 && upTo == pushed0 - |replay| + taken
  }

  /** What the allowlist lets through of a stretch of the history. */
  function Passed(permits: TailedEvent -> bool, feed: seq<TailedEvent>, from: nat, upTo: nat): seq<TailedEvent>
    requires from <= upTo <= |feed|
  {
    Filter(permits, feed[from..upTo])
  }

  ghost predicate Exact(
      feed: seq<TailedEvent>, permits: TailedEvent -> bool, from: nat, upTo: nat, state: ClientState) {
    && from <= upTo <= |feed|
    && state.received == Passed(permits, feed, from, upTo)
    && AtPlace(state.phase, upTo)
  }

  /** The feed position of the last event a client received. */
  lemma LastReceivedAt(
      feed: seq<TailedEvent>, permits: TailedEvent -> bool, from: nat, upTo: nat, received: seq<TailedEvent>)
      returns (i: nat)
    requires from <= upTo <= |feed| && received == Passed(permits, feed, from, upTo) && received != []
    ensures from <= i < |feed| && LastReceived(received) == Some(feed[i].id)
    ensures received == Passed(permits, feed, from, i + 1)
  {
    var stretch := feed[from..upTo];
    var k := LastKept(permits, stretch);
    i := from + k;
    assert stretch[k] == feed[i];
    assert stretch[..k + 1] == feed[from..i + 1];
  }

  /** With distinct ids, replaying after the event at feed position `i` starts at `i + 1`. */
  lemma ReplayStartsAfter(feed: seq<TailedEvent>, pushed: nat, i: nat)
    requires Distinct(Ids(feed)) && i < |feed| && pushed <= |feed|
    requires Holds(Ring(feed, pushed), feed[i].id)
    ensures i < pushed && Resume(feed, pushed, Some(feed[i].id)) == i + 1
  {
    RingAt(feed, pushed);
    var ring := Ring(feed, pushed);
    var k := RingStart(pushed) + Position(ring, feed[i].id);
    assert ring[k - RingStart(pushed)] == feed[k];
    assert Ids(feed)[k] == Ids(feed)[i];
    assert HeldAt(feed, pushed, Some(feed[i].id), i);
    ResumeIsBehindTheWatermark(feed, pushed, Some(feed[i].id), i);
  }

  lemma NoWatermark(feed: seq<TailedEvent>, pushed: nat)
    ensures Resume(feed, pushed, None) == RingStart(pushed)
  {
    assert forall i :: !HeldAt(feed, pushed, None, i);
  }

  lemma SnapshotKeepsExact(
      feed: seq<TailedEvent>, permits: TailedEvent -> bool, from: nat, upTo: nat, s: System, state: ClientState,
      watermark: Option<Uuid>)
    requires Distinct(Ids(feed)) && s.pushed <= |feed| && Exact(feed, permits, from, upTo, state)
    requires KeepsPlace(Ring(feed, s.pushed), state.received, watermark)
    ensures var from' := if state.received == [] then RingStart(s.pushed) else from;
      Exact(feed, permits, from', Resume(feed, s.pushed, watermark), AfterSnapshot(feed, s, state, watermark))
  {
    ReplayIsHistoryAfterWatermark(feed, s.pushed, watermark);
    if state.received == [] {
      NoWatermark(feed, s.pushed);
      assert feed[RingStart(s.pushed)..RingStart(s.pushed)] == [];
    } else {
      PlaceIsKept(feed, permits, from, upTo, s.pushed, state.received);
    }
  }

  lemma PlaceIsKept(
      feed: seq<TailedEvent>, permits: TailedEvent -> bool, from: nat, upTo: nat, pushed: nat,
      received: seq<TailedEvent>)
    requires Distinct(Ids(feed)) && from <= upTo <= |feed| && pushed <= |feed|
    requires received == Passed(permits, feed, from, upTo) && received != []
    requires Holds(Ring(feed, pushed), LastReceived(received).value)
    ensures var start := Resume(feed, pushed, LastReceived(received));
      from <= start <= pushed && received == Passed(permits, feed, from, start)
  {
    var i := LastReceivedAt(feed, permits, from, upTo, received);
    ResumeAfter(feed, pushed, LastReceived(received), i);
  }

  lemma ResumeAfter(feed: seq<TailedEvent>, pushed: nat, watermark: Option<Uuid>, i: nat)
    requires Distinct(Ids(feed)) && i < |feed| && pushed <= |feed|
    requires watermark == Some(feed[i].id) && Holds(Ring(feed, pushed), watermark.value)
    ensures i < pushed && Resume(feed, pushed, watermark) == i + 1
  {
    ReplayStartsAfter(feed, pushed, i);
  }

  /** A connection that kept its place forwards the feed event it is at. */
  lemma NextIsAtPlace(feed: seq<TailedEvent>, pushed: nat, sent: nat, phase: Phase, upTo: int)
    requires sent <= pushed <= |feed|
    requires PhaseOk(feed, pushed, sent, phase) && AtPlace(phase, upTo) && phase.Streaming?
    requires phase.taken < |phase.replay| + |phase.live|
    ensures 0 <= upTo < pushed && (phase.replay + phase.live)[phase.taken] == feed[upTo]
  {
  }

  lemma FilterExtends(permits: TailedEvent -> bool, feed: seq<TailedEvent>, from: nat, upTo: nat)
    requires from <= upTo < |feed|
    ensures Passed(permits, feed, from, upTo + 1)
      == Passed(permits, feed, from, upTo) + if permits(feed[upTo]) then [feed[upTo]] else []
  {
    assert feed[from..upTo + 1] == feed[from..upTo] + [feed[upTo]];
    FilterStep(permits, feed[from..upTo], feed[upTo]);
  }

  lemma ForwardKeepsExact(
      feed: seq<TailedEvent>, permits: TailedEvent -> bool, from: nat, upTo: nat, pushed: nat, sent: nat,
      state: ClientState)
    requires sent <= pushed <= |feed| && PhaseOk(feed, pushed, sent, state.phase)
    requires Exact(feed, permits, from, upTo, state) && state.phase.Streaming?
    requires state.phase.taken < |state.phase.replay| + |state.phase.live|
    ensures Exact(feed, permits, from, upTo + 1, AfterForward(permits, state))
  {
    NextIsAtPlace(feed, pushed, sent, state.phase, upTo);
    FilterExtends(permits, feed, from, upTo);
  }

  lemma StepKeepsExact(
      feed: seq<TailedEvent>, permits: Permits, s: System, step: Step, c: Client, joined: nat, upTo: nat)
    requires Distinct(Ids(feed)) && Inv(feed, s) && Enabled(feed, s, step) && OrderlyStep(feed, s, step, c)
    requires Exact(feed, Allowlist(permits, c), RingStart(joined), upTo, StateOf(s, c))
    ensures Exact(feed, Allowlist(permits, c), RingStart(JoinedAfter(s, step, c, joined)),
                  UpToAfter(feed, s, step, c, upTo), StateOf(Apply(feed, permits, s, step), c))
  {
    var p, state, from := Allowlist(permits, c), StateOf(s, c), RingStart(joined);
    match step
    case Snapshot(d, w) =>
      if d == c { SnapshotKeepsExact(feed, p, from, upTo, s, state, w); }
    case Forward(d) =>
      if d == c { ForwardKeepsExact(feed, p, from, upTo, s.pushed, s.sent, state); }
    case _ =>
  }

  /** Whatever the interleaving, an orderly client has received exactly what its allowlist lets
      through of the history from where it joined to where it has got. */
  lemma {:induction false} OrderlyIsExact(
      feed: seq<TailedEvent>, permits: Permits, steps: seq<Step>, s: System, c: Client)
    requires Distinct(Ids(feed)) && After(feed, permits, steps) == Some(s) && Orderly(feed, permits, steps, c)
    ensures Exact(feed, Allowlist(permits, c), RingStart(Joined(feed, permits, steps, c)),
                  UpTo(feed, permits, steps, c), StateOf(s, c))
  {
    if steps == [] {
      assert feed[0..0] == [];
    } else {
      var init, last := steps[..|steps| - 1], steps[|steps| - 1];
      var before := After(feed, permits, init).value;
      OrderlyIsExact(feed, permits, init, before, c);
      RunKeepsInv(feed, permits, init);
      StepKeepsExact(feed, permits, before, last, c, Joined(feed, permits, init, c), UpTo(feed, permits, init, c));
    }
  }

  lemma {:induction false} JoinedIsPast(
      feed: seq<TailedEvent>, permits: Permits, steps: seq<Step>, s: System, c: Client)
    requires After(feed, permits, steps) == Some(s)
    ensures Joined(feed, permits, steps, c) <= s.pushed
  {
    if steps != [] {
      var init := steps[..|steps| - 1];
      JoinedIsPast(feed, permits, init, After(feed, permits, init).value, c);
    }
  }
}
