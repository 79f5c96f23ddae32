/** The values that travel through the realtime path (src/realtime/registry.rs, src/realtime/tailer.rs). */
module Events {
  import opened Prelude

  const UUID_LIMIT: nat := 0x1_0000_0000_0000_0000_0000_0000_0000_0000

  /** A 128-bit identifier; the realtime and queue protocols only compare it. */
  type Uuid = n: nat | n < UUID_LIMIT

  datatype Json =
    | JNull
    | JBool(b: bool)
    | JNumber(n: int)
    | JString(s: string)
    | JArray(items: seq<Json>)
    | JObject(fields: map<string, Json>)
  {
    /** Member lookup: only an object has members. */
    function Get(key: string): Option<Json> {
      if JObject? && key in fields then Some(fields[key]) else None
    }
  }

  datatype TailedEvent = TailedEvent(
    id: Uuid, channel: string, messageType: string, payload: Json, occurredAt: int)

  function Ids(events: seq<TailedEvent>): (r: seq<Uuid>)
    ensures |r| == |events| && forall i :: 0 <= i < |r| ==> r[i] == events[i].id
  {
    seq(|events|, i requires 0 <= i < |events| => events[i].id)
  }
}
