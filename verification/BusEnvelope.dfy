/** The envelope a bus event travels in, as staged and as read back
    (src/domain/event/constants.rs, src/realtime/tailer.rs). */
module BusEnvelope {
  import opened Prelude
  import opened Events
  import opened Tailer

  /** What is extracted, exactly: the row's id and time with the channel, type and payload its envelope
      names, whenever the channel keeps to the grammar; and nothing from any other shape. */
  lemma ExtractedIff(row: Row, e: TailedEvent)
    ensures ExtractEvent(row) == Some(e) <==>
      && e.id == row.id && e.occurredAt == row.occurredAt
      && row.payload.Get("channel") == Some(JString(e.channel)) && ValidChannelKey(e.channel)
      && row.payload.Get("message").Some?
      && row.payload.Get("message").value.Get("type") == Some(JString(e.messageType))
      && row.payload.Get("message").value.Get("payload") == Some(e.payload)
  {
  }

  /** The envelope producers stage, however the payload looks. */
  function Envelope(channel: string, messageType: string, payload: Json): Json {
    JObject(map["channel" := JString(channel),
                "message" := JObject(map["type" := JString(messageType), "payload" := payload])])
  }

  /** Staging and extracting undo each other, if and only if the channel keeps to the grammar. */
  lemma EnvelopeRoundTripIff(id: Uuid, at: int, channel: string, messageType: string, payload: Json)
    ensures ExtractEvent(Row(id, at, Envelope(channel, messageType, payload)))
      == if ValidChannelKey(channel) then Some(TailedEvent(id, channel, messageType, payload, at)) else None
  {
  }
}
