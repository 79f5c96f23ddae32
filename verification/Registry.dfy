/** The broadcast registry: replay ring and connection accounting (src/realtime/registry.rs). */
module Registry {
  import opened Prelude
  import opened Events

  const RING_CAPACITY: nat := 4096

  /** Position of the first event carrying `id`, or the length when there is none. */
  function Position(ring: seq<TailedEvent>, id: Uuid): (k: nat)
    ensures k <= |ring|
    ensures forall j :: 0 <= j < k ==> ring[j].id != id
    ensures k < |ring| ==> ring[k].id == id
  {
    if ring == [] then 0
    else if ring[0].id == id then 0
    else 1 + Position(ring[1..], id)
  }

  predicate Holds(ring: seq<TailedEvent>, id: Uuid) { Position(ring, id) < |ring| }

  /** What a watermark replays: the events after it, or the whole ring when it is absent. */
  function Replay(ring: seq<TailedEvent>, watermark: Option<Uuid>): seq<TailedEvent> {
    if watermark.Some? && Holds(ring, watermark.value)
    then ring[Position(ring, watermark.value) + 1..]
    else ring
  }

  lemma ReplayIsTail(ring: seq<TailedEvent>, pushed: seq<TailedEvent>, start: nat)
    requires ring == LastUpTo(pushed, RING_CAPACITY) && start <= |ring|
    ensures |ring[start..]| <= |pushed| && ring[start..] == pushed[|pushed| - |ring[start..]|..]
  {
    assert ring == pushed[|pushed| - |ring|..];
  }

  // ---- connection slots ----

  /** One more open stream of this identity, if the cap allows it. */
  function Reserved(streams: multiset<string>, key: string, cap: nat): multiset<string> {
    if streams[key] < cap then streams + multiset{key} else streams
  }

  datatype SlotStep = Reserve(key: string) | Release(key: string)

  /** The open streams after any interleaving of requests and endings; both run under one lock. */
  function StreamsAfter(steps: seq<SlotStep>, cap: nat): multiset<string> {
    if steps == [] then multiset{}
    else
      var before := StreamsAfter(steps[..|steps| - 1], cap);
      match steps[|steps| - 1]
      case Reserve(key) => Reserved(before, key, cap)
      case Release(key) => before - multiset{key}
  }

  lemma {:induction false} NeverMoreThanTheCap(steps: seq<SlotStep>, cap: nat, key: string)
    ensures StreamsAfter(steps, cap)[key] <= cap
  {
    if steps != [] {
      NeverMoreThanTheCap(steps[..|steps| - 1], cap, key);
    }
  }

  class RealtimeRegistry {
    var ring: seq<TailedEvent>
    var connections: map<string, nat>
    // Every event ever pushed, every event ever broadcast, and the streams now open.
    ghost var pushed: seq<TailedEvent>
    ghost var broadcast: seq<TailedEvent>
    ghost var streams: multiset<string>

    ghost predicate Valid()
      reads this
    {
      && ring == LastUpTo(pushed, RING_CAPACITY)
      && (forall k :: k in connections <==> k in streams)
      && (forall k :: k in connections ==> connections[k] == streams[k])
    }

    constructor ()
      ensures Valid() && pushed == [] && broadcast == [] && streams == multiset{}
    {
      ring, connections := [], map[];
      pushed, broadcast, streams := [], [], multiset{};
    }

    /** The locked half of `publish`: push, then pop until the ring fits. */
    method PushRing(event: TailedEvent)
      requires Valid()
      modifies this`ring, this`pushed
      ensures Valid()
      ensures pushed == old(pushed) + [event]
      ensures |ring| == Min(|pushed|, RING_CAPACITY)
      ensures forall i :: 0 <= i < |ring| ==> ring[i] == pushed[|pushed| - |ring| + i]
    {
      ring := ring + [event];
      pushed := pushed + [event];
      while |ring| > RING_CAPACITY
        invariant pushed == old(pushed) + [event]
        invariant |ring| >= RING_CAPACITY || ring == pushed
        invariant |ring| <= |pushed| && ring == pushed[|pushed| - |ring|..]
      {
        ring := ring[1..];
      }
    }

    /** The unlocked half: the broadcast send. */
    ghost method Send(event: TailedEvent)
      modifies this`broadcast
      ensures broadcast == old(broadcast) + [event]
    {
      broadcast := broadcast + [event];
    }

    method Publish(event: TailedEvent)
      requires Valid()
      modifies this`ring, this`pushed, this`broadcast
      ensures Valid()
      ensures pushed == old(pushed) + [event] && broadcast == old(broadcast) + [event]
    {
      PushRing(event);
      Send(event);
    }

    /** The replay set for a `Last-Event-ID` watermark. */
    method ReplayAfter(watermark: Option<Uuid>) returns (replay: seq<TailedEvent>)
      requires Valid()
      ensures replay == Replay(ring, watermark)
      ensures |replay| <= |pushed| && replay == pushed[|pushed| - |replay|..]
    {
      var start := 0;
      if watermark.Some? {
        var i := 0;
        while i < |ring| && ring[i].id != watermark.value
          invariant 0 <= i <= |ring|
          invariant forall j :: 0 <= j < i ==> ring[j].id != watermark.value
        {
          i := i + 1;
        }
        if i < |ring| {
          assert Position(ring, watermark.value) == i;
          start := i + 1;
        }
      }
      ReplayIsTail(ring, pushed, start);
      return ring[start..];
    }

    /** Under the cap the slot is taken; at the cap nothing changes and the count is reported. */
    method ReserveConnection(key: string, cap: nat) returns (r: Result<(), nat>)
      requires Valid()
      modifies this`connections, this`streams
      ensures Valid()
      ensures r.Ok? <==> old(streams)[key] < cap
      ensures streams == Reserved(old(streams), key, cap)
      ensures r.Err? ==> connections == old(connections) && r.error == streams[key]
    {
      var current := if key in connections then connections[key] else 0;
      if current >= cap { return Err(current); }
      connections := connections[key := current + 1];
      streams := streams + multiset{key};
      return Ok(());
    }

    /** One stream of this identity fewer; a release nobody reserved changes nothing. */
    method ReleaseConnection(key: string)
      requires Valid()
      modifies this`connections, this`streams
      ensures Valid()
      ensures streams == old(streams) - multiset{key}
    {
      if key in connections {
        var n := if connections[key] == 0 then 0 else connections[key] - 1;
        connections := if n == 0 then connections - {key} else connections[key := n];
      }
      streams := streams - multiset{key};
    }
  }
}
