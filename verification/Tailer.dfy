/** The outbox tailer: one poll pass (src/realtime/tailer.rs). */
module Tailer {
  import opened Prelude
  import opened Events
  import opened Registry

  const MAX_CHANNEL_KEY: nat := 128

  /** An outbox row; `occurredAt` is fixed when the row is written. */
  datatype Row = Row(id: Uuid, occurredAt: int, payload: Json)

  type Seen = map<Uuid, int>

  predicate KeyChar(c: char) {
    'a' <= c <= 'z' || 'A' <= c <= 'Z' || '0' <= c <= '9' || c == '_' || c == '.' || c == '-'
  }

  predicate ValidChannelKey(channel: string) {
    channel != "" && |channel| <= MAX_CHANNEL_KEY && forall c :: c in channel ==> KeyChar(c)
  }

  /** The bus envelope unwrapped, or nothing when it is not bus-shaped or its key is refused. */
  function ExtractEvent(row: Row): (r: Option<TailedEvent>)
    ensures r.Some? ==> r.value.id == row.id && r.value.occurredAt == row.occurredAt
    ensures r.Some? ==> ValidChannelKey(r.value.channel)
  {
    var channel := row.payload.Get("channel");
    var message := row.payload.Get("message");
    if channel.None? || !channel.value.JString? || !ValidChannelKey(channel.value.s) || message.None? then None
    else
      var kind := message.value.Get("type");
      var inner := message.value.Get("payload");
      if kind.None? || !kind.value.JString? || inner.None? then None
      else Some(TailedEvent(row.id, channel.value.s, kind.value.s, inner.value, row.occurredAt))
  }

  /** Entries at or before the horizon are dropped. */
  function Pruned(seen: Seen, horizon: int): Seen {
    map id | id in seen && seen[id] > horizon :: seen[id]
  }

  /** The dedup map once every fetched row has been looked at. */
  function Absorb(seen: Seen, rows: seq<Row>): Seen {
    if rows == [] then seen
    else
      var before, row := Absorb(seen, rows[..|rows| - 1]), rows[|rows| - 1];
      if row.id in before then before else before[row.id := row.occurredAt]
  }

  /** The events a pass publishes: unseen, well-formed rows in fetch order. */
  function Fresh(seen: Seen, rows: seq<Row>): seq<TailedEvent> {
    if rows == [] then []
    else
      var init, row := rows[..|rows| - 1], rows[|rows| - 1];
      var before, event := Fresh(seen, init), ExtractEvent(row);
      if row.id in Absorb(seen, init) || event.None? then before else before + [event.value]
  }

  /** What one row adds to the publish log. */
  function News(seen: Seen, row: Row): seq<TailedEvent> {
    if row.id in seen || ExtractEvent(row).None? then [] else [ExtractEvent(row).value]
  }

  lemma AbsorbStep(seen: Seen, rows: seq<Row>, row: Row)
    ensures var before := Absorb(seen, rows);
      Absorb(seen, rows + [row]) == if row.id in before then before else before[row.id := row.occurredAt]
  {
    assert (rows + [row])[..|rows|] == rows;
  }

  lemma FreshExtends(before: seq<TailedEvent>, seen: Seen, rows: seq<Row>, row: Row)
    ensures Fresh(seen, rows + [row]) == Fresh(seen, rows) + News(Absorb(seen, rows), row)
    ensures before + Fresh(seen, rows + [row]) == before + Fresh(seen, rows) + News(Absorb(seen, rows), row)
  {
    assert (rows + [row])[..|rows|] == rows;
  }

  class OutboxTailer {
    var seen: Seen
    const registry: RealtimeRegistry

    constructor (registry: RealtimeRegistry)
      ensures seen == map[] && this.registry == registry
    {
      seen := map[];
      this.registry := registry;
    }

    /** One pass: prune by the application clock, then publish what the query returned and
        was not seen yet. A failed query leaves the pruned map and publishes nothing. */
    method PollOnce(now: int, fetched: Result<seq<Row>, string>, window: nat) returns (r: Result<nat, string>)
      requires registry.Valid()
      modifies this`seen, registry`ring, registry`pushed, registry`broadcast
      ensures registry.Valid()
      ensures fetched.Err? ==> r == Err(fetched.error)
      ensures fetched.Err? ==> seen == Pruned(old(seen), now - window) && unchanged(registry)
      ensures fetched.Ok? ==> seen == Absorb(Pruned(old(seen), now - window), fetched.value)
      ensures fetched.Ok? ==>
        var batch := Fresh(Pruned(old(seen), now - window), fetched.value);
        && registry.pushed == old(registry.pushed) + batch
        && registry.broadcast == old(registry.broadcast) + batch
        && r == Ok(|batch|)
    {
      var horizon := now - window;
      seen := map id | id in seen && seen[id] > horizon :: seen[id];
      if fetched.Err? { return Err(fetched.error); }
      var rows := fetched.value;
      ghost var start := seen;
      var published := 0;
      for i := 0 to |rows|
        invariant registry.Valid()
        invariant seen == Absorb(start, rows[..i])
        invariant registry.pushed == old(registry.pushed) + Fresh(start, rows[..i])
        invariant registry.broadcast == old(registry.broadcast) + Fresh(start, rows[..i])
        invariant published == |Fresh(start, rows[..i])|
      {
        var row := rows[i];
        assert rows[..i + 1] == rows[..i] + [row];
        AbsorbStep(start, rows[..i], row);
        FreshExtends(old(registry.pushed), start, rows[..i], row);
        FreshExtends(old(registry.broadcast), start, rows[..i], row);
        var isNew := LookAt(row);
        if isNew { published := published + 1; }
      }
      assert rows[..|rows|] == rows;
      return Ok(published);
    }

    /** One row of the window: remembered, and published when it is new and well-formed. */
    method LookAt(row: Row) returns (isNew: bool)
      requires registry.Valid()
      modifies this`seen, registry`ring, registry`pushed, registry`broadcast
      ensures registry.Valid()
      ensures seen == if row.id in old(seen) then old(seen) else old(seen)[row.id := row.occurredAt]
      ensures registry.pushed == old(registry.pushed) + News(old(seen), row)
      ensures registry.broadcast == old(registry.broadcast) + News(old(seen), row)
      ensures isNew <==> News(old(seen), row) != []
    {
      if row.id in seen { return false; }
      seen := seen[row.id := row.occurredAt];
      var event := ExtractEvent(row);
      if event.Some? {
        registry.Publish(event.value);
        isNew := true;
      } else {
        isNew := false;
      }
    }
  }
}
