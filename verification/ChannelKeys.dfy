/** Record channels: how they are spelled, read back and checked
    (src/realtime/tailer.rs, src/domain/event/constants.rs). */
module ChannelKeys {
  import opened Prelude
  import opened Bytes
  import opened Session
  import opened Tailer
  import Recipients

  /** The uuid reader of the library: all that matters is that it reads the hyphenated form back. */
  type UuidReader = string -> Option<UuidBytes>

  ghost predicate ReadsHyphenated(reader: UuidReader) {
    forall id :: reader(Hyphenated(id)) == Some(id)
  }

  function RecordChannel(model: string, id: UuidBytes): string { model + "_" + Hyphenated(id) }

  /** The key split on its last underscore, when what follows is a uuid. */
  function ParseRecordKey(channel: string, reader: UuidReader): Option<(string, UuidBytes)> {
    var at := Recipients.LastIndex(channel, '_');
    if at.None? then None
    else
      Recipients.LastIndexSplits(channel, '_');
      var id := reader(channel[at.value + 1..]);
      if id.None? then None else Some((channel[..at.value], id.value))
  }

  /** Reading undoes spelling for every model name, names with underscores included. */
  lemma RecordKeyRoundTrip(model: string, id: UuidBytes, reader: UuidReader)
    requires ReadsHyphenated(reader)
    ensures ParseRecordKey(RecordChannel(model, id), reader) == Some((model, id))
  {
    HyphenatedIsKeyText(id);
    assert '_' !in Hyphenated(id);
    Recipients.LastIndexOfJoined(model, '_', Hyphenated(id));
    var channel := RecordChannel(model, id);
    assert channel[..|model|] == model && channel[|model| + 1..] == Hyphenated(id);
  }

  /** Two records never share a channel. */
  lemma RecordChannelIsInjective(m1: string, id1: UuidBytes, m2: string, id2: UuidBytes)
    requires RecordChannel(m1, id1) == RecordChannel(m2, id2)
    ensures m1 == m2 && id1 == id2
  {
    HyphenatedIsKeyText(id1);
    HyphenatedIsKeyText(id2);
    var channel := RecordChannel(m1, id1);
    assert |m1| == |channel| - 37 == |m2|;
    assert channel[..|m1|] == m1 && channel[..|m2|] == m2;
    assert channel[|m1| + 1..] == Hyphenated(id1) && channel[|m2| + 1..] == Hyphenated(id2);
    HyphenatedIsInjective(id1, id2);
  }

  /** The tailer lets a record channel through exactly when the model name keeps to the key
      alphabet and has at most 91 characters; an event of any other record is dropped for good. */
  lemma RecordChannelIsValidIff(model: string, id: UuidBytes)
    ensures ValidChannelKey(RecordChannel(model, id)) <==>
      |model| <= MAX_CHANNEL_KEY - 37 && forall c :: c in model ==> KeyChar(c)
  {
    var key, channel := Hyphenated(id), RecordChannel(model, id);
    HyphenatedIsKeyText(id);
    assert forall c :: c in key ==> HexDigit(c) || c == '-';
    assert forall c :: c in channel <==> c in model || c == '_' || c in key;
  }
}
