/** The stream endpoint: slot, snapshot, forwarder (src/realtime/sse.rs). */
module Sse {
  import opened Prelude
  import opened Events
  import opened Registry

  const MAX_STREAMS_PER_IDENTITY: nat := 4

  datatype Frame =
    | SessionFrame(proof: string)
    | MessageFrame(id: Uuid, event: string, data: Json)

  /** What the broadcast receiver hands over next. */
  datatype Received = Live(event: TailedEvent) | Lagged(missed: nat) | Closed

  /** However requests and endings interleave, no identity ever has more than four streams open. */
  lemma NeverMoreThanFourStreams(steps: seq<SlotStep>, key: string)
    ensures StreamsAfter(steps, MAX_STREAMS_PER_IDENTITY)[key] <= 4
  {
    NeverMoreThanTheCap(steps, MAX_STREAMS_PER_IDENTITY, key);
  }

  function FrameOf(event: TailedEvent): Frame {
    MessageFrame(event.id, event.messageType, event.payload)
  }

  function Frames(events: seq<TailedEvent>): seq<Frame> {
    seq(|events|, i requires 0 <= i < |events| => FrameOf(events[i]))
  }

  /** The live events up to the close of the feed; a lag notice carries none. */
  function Heard(incoming: seq<Received>): seq<TailedEvent> {
    if incoming == [] || incoming[0].Closed? then []
    else if incoming[0].Live? then [incoming[0].event] + Heard(incoming[1..])
    else Heard(incoming[1..])
  }

  /** The first `n` frames: the client is gone at send number `n + 1`. */
  function Accepted(frames: seq<Frame>, n: nat): seq<Frame> { frames[..Min(n, |frames|)] }

  /** What an identity's connection puts on the wire. */
  function Wire(proof: string, permits: TailedEvent -> bool, events: seq<TailedEvent>): seq<Frame> {
    [SessionFrame(proof)] + Frames(Filter(permits, events))
  }

  /** Frames already accepted stay the accepted prefix when more events follow. */
  lemma {:induction false} WireGrows(proof: string, permits: TailedEvent -> bool, a: seq<TailedEvent>,
      b: seq<TailedEvent>)
    ensures Wire(proof, permits, a) <= Wire(proof, permits, a + b)
  {
    FilterConcat(permits, a, b);
  }

  /** The forwarder task: the proof, then every permitted event of the replay and of the live
      feed in order, until the client is gone or the feed closes. */
  method Forward(proof: string, permits: TailedEvent -> bool, replay: seq<TailedEvent>, incoming: seq<Received>,
      accepts: nat)
      returns (sent: seq<Frame>)
    ensures sent == Accepted(Wire(proof, permits, replay + Heard(incoming)), accepts)
  {
    sent := [];
    if accepts == 0 { return; }
    sent := [SessionFrame(proof)];
    for i := 0 to |replay|
      invariant sent == Wire(proof, permits, replay[..i]) && |sent| <= accepts
    {
      OneMoreEvent(proof, permits, replay[..i], replay[i], accepts);
      assert replay[..i + 1] == replay[..i] + [replay[i]];
      var gone;
      sent, gone := Push(FrameOf(replay[i]), permits(replay[i]), sent, accepts);
      if gone {
        GoneStaysGone(proof, permits, replay[..i + 1], replay[i + 1..] + Heard(incoming), accepts);
        assert replay + Heard(incoming) == replay[..i + 1] + (replay[i + 1..] + Heard(incoming));
        return;
      }
    }
    assert replay[..|replay|] == replay;
    sent := ForwardLive(proof, permits, replay, incoming, accepts, sent);
  }

  /** The receive loop, with the replay already on the wire. */
  method ForwardLive(proof: string, permits: TailedEvent -> bool, ghost replay: seq<TailedEvent>,
      incoming: seq<Received>, accepts: nat, before: seq<Frame>)
      returns (sent: seq<Frame>)
    requires before == Wire(proof, permits, replay) && |before| <= accepts
    ensures sent == Accepted(Wire(proof, permits, replay + Heard(incoming)), accepts)
  {
    sent := before;
    ghost var done := replay;
    for next := 0 to |incoming|
      invariant sent == Wire(proof, permits, done) && |sent| <= accepts
      invariant done + Heard(incoming[next..]) == replay + Heard(incoming)
    {
      match incoming[next] {
        case Live(event) =>
          OneMoreEvent(proof, permits, done, event, accepts);
          assert done + Heard(incoming[next..]) == (done + [event]) + Heard(incoming[next + 1..]);
          done := done + [event];
          var gone;
          sent, gone := Push(FrameOf(event), permits(event), sent, accepts);
          if gone {
            GoneStaysGone(proof, permits, done, Heard(incoming[next + 1..]), accepts);
            return;
          }
        case Lagged(_) =>
        case Closed =>
          assert Heard(incoming[next..]) == [];
          assert done == replay + Heard(incoming);
          return;
      }
    }
    assert Heard(incoming[|incoming|..]) == [];
    assert done == replay + Heard(incoming);
  }

  /** One send: taken while the client is there, refused once it is gone. */
  method Push(frame: Frame, wanted: bool, before: seq<Frame>, accepts: nat) returns (sent: seq<Frame>, gone: bool)
    requires |before| <= accepts
    ensures gone <==> wanted && |before| == accepts
    ensures sent == if wanted && |before| < accepts then before + [frame] else before
  {
    gone := wanted && |before| == accepts;
    sent := if wanted && !gone then before + [frame] else before;
  }

  lemma OneMoreEvent(proof: string, permits: TailedEvent -> bool, events: seq<TailedEvent>, event: TailedEvent,
      accepts: nat)
    requires |Wire(proof, permits, events)| <= accepts
    ensures (var wire, more := Wire(proof, permits, events), Wire(proof, permits, events + [event]);
      if !permits(event) then more == wire
      else more == wire + [FrameOf(event)] && Accepted(more, accepts) == if |wire| < accepts then more else wire)
  {
  }

  /** Frames beyond what the client accepts are never on the wire, however many follow. */
  lemma GoneStaysGone(proof: string, permits: TailedEvent -> bool, a: seq<TailedEvent>, b: seq<TailedEvent>,
      accepts: nat)
    requires |Wire(proof, permits, a)| > accepts
    ensures Accepted(Wire(proof, permits, a + b), accepts) == Accepted(Wire(proof, permits, a), accepts)
  {
    WireGrows(proof, permits, a, b);
  }

  /** One request: refused at the cap with nothing taken; otherwise the slot is held for the
      life of the forwarder and given back however it ends. */
  method Serve(registry: RealtimeRegistry, key: string, watermark: Option<Uuid>, proof: string,
               permits: TailedEvent -> bool, incoming: seq<Received>, accepts: nat)
      returns (r: Result<seq<Frame>, nat>)
    requires registry.Valid()
    modifies registry`connections, registry`streams
    ensures registry.Valid() && registry.streams == old(registry.streams)
    ensures r.Err? <==> registry.streams[key] >= MAX_STREAMS_PER_IDENTITY
    ensures r.Ok? ==>
      r.value == Accepted(Wire(proof, permits, Replay(registry.ring, watermark) + Heard(incoming)), accepts)
  {
    var slot := registry.ReserveConnection(key, MAX_STREAMS_PER_IDENTITY);
    if slot.Err? { return Err(slot.error); }
    var replay := registry.ReplayAfter(watermark);
    var sent := Forward(proof, permits, replay, incoming, accepts);
    registry.ReleaseConnection(key);
    return Ok(sent);
  }
}
