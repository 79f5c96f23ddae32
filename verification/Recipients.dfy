/** Recipient lists: the joined queue column and the envelope split
    (src/application/service/mail_queue_write_service.rs, src/application/service/message_write_service.rs). */
module Recipients {
  import opened Prelude

  /** The Unicode white space that trimming removes. */
  predicate White(c: char) {
    || '\t' <= c <= '\r' || c == ' ' || c == '\U{85}' || c == '\U{A0}' || c == '\U{1680}'
    || '\U{2000}' <= c <= '\U{200A}' || c == '\U{2028}' || c == '\U{2029}' || c == '\U{202F}'
    || c == '\U{205F}' || c == '\U{3000}'
  }

  function TrimStart(s: string): string {
    if s != [] && White(s[0]) then TrimStart(s[1..]) else s
  }

  function TrimEnd(s: string): string {
    if s != [] && White(s[|s| - 1]) then TrimEnd(s[..|s| - 1]) else s
  }

  function Trim(s: string): string { TrimEnd(TrimStart(s)) }

  /** The last piece made longer by `t`. */
  function Grow(pieces: seq<string>, t: string): (r: seq<string>)
    requires pieces != []
    ensures r != []
  {
    pieces[..|pieces| - 1] + [pieces[|pieces| - 1] + t]
  }

  lemma GrowTwice(pieces: seq<string>, t: string, u: string)
    requires pieces != []
    ensures Grow(Grow(pieces, t), u) == Grow(pieces, t + u)
  {
    var last := pieces[|pieces| - 1];
    assert last + t + u == last + (t + u);
  }

  /** Pieces between separators; one more piece than there are separators. */
  function Split(s: string, sep: char): (r: seq<string>)
    ensures r != []
  {
    if s == [] then [""]
    else
      var before, c := Split(s[..|s| - 1], sep), s[|s| - 1];
      if c == sep then before + [""] else Grow(before, [c])
  }

  function LastIndex(s: string, sep: char): Option<nat> {
    if s == "" then None else if s[|s| - 1] == sep then Some(|s| - 1) else LastIndex(s[..|s| - 1], sep)
  }

  lemma {:induction false} LastIndexSplits(s: string, sep: char)
    ensures LastIndex(s, sep).None? <==> sep !in s
    ensures LastIndex(s, sep).Some? ==>
      var at := LastIndex(s, sep).value; at < |s| && s[at] == sep && sep !in s[at + 1..]
  {
    if s != "" {
      var init, c := s[..|s| - 1], s[|s| - 1];
      LastIndexSplits(init, sep);
      assert s == init + [c];
      if c != sep && LastIndex(init, sep).Some? {
        var at := LastIndex(s, sep).value;
        assert s[at + 1..] == init[at + 1..] + [c];
      }
    }
  }

  lemma {:induction false} LastIndexOfJoined(a: string, sep: char, b: string)
    requires sep !in b
    ensures LastIndex(a + [sep] + b, sep) == Some(|a|)
  {
    var s := a + [sep] + b;
    if b != "" {
      assert s[..|s| - 1] == a + [sep] + b[..|b| - 1];
      LastIndexOfJoined(a, sep, b[..|b| - 1]);
    }
  }

  function Join(parts: seq<string>, sep: string): string {
    if parts == [] then ""
    else if |parts| == 1 then parts[0]
    else Join(parts[..|parts| - 1], sep) + sep + parts[|parts| - 1]
  }

  /** The pieces trimmed, blank ones dropped. */
  function Addresses(pieces: seq<string>): seq<string> {
    if pieces == [] then []
    else
      var addr := Trim(pieces[|pieces| - 1]);
      Addresses(pieces[..|pieces| - 1]) + if addr == "" then [] else [addr]
  }

  function ListAddresses(column: Option<string>): seq<string> {
    if column.None? then [] else Addresses(Split(column.value, ','))
  }

  /** The envelope recipients of a queue row: its `to` addresses, then its `cc` addresses. */
  function Envelope(to: Option<string>, cc: Option<string>): seq<string> {
    ListAddresses(to) + ListAddresses(cc)
  }

  lemma AddressesStep(pieces: seq<string>, piece: string)
    ensures Addresses(pieces + [piece]) == Addresses(pieces) + if Trim(piece) == "" then [] else [Trim(piece)]
  {
  }

  method SplitRecipients(to: Option<string>, cc: Option<string>) returns (out: seq<string>)
    ensures out == Envelope(to, cc)
  {
    out := SplitList(to, []);
    assert out == ListAddresses(to);
    out := SplitList(cc, out);
  }

  /** One list of the pair: its trimmed non-blank pieces are pushed behind what is there. */
  method SplitList(column: Option<string>, before: seq<string>) returns (out: seq<string>)
    ensures out == before + ListAddresses(column)
  {
    out := before;
    if column.None? { return; }
    var pieces := Split(column.value, ',');
    for j := 0 to |pieces|
      invariant out == before + Addresses(pieces[..j])
    {
      PieceByPiece(before, pieces, j);
      var addr := Trim(pieces[j]);
      if addr != "" { out := out + [addr]; }
    }
    assert pieces[..|pieces|] == pieces;
  }

  lemma PieceByPiece(before: seq<string>, pieces: seq<string>, j: nat)
    requires j < |pieces|
    ensures before + Addresses(pieces[..j + 1]) ==
      before + Addresses(pieces[..j]) + if Trim(pieces[j]) == "" then [] else [Trim(pieces[j])]
  {
    AddressesStep(pieces[..j], pieces[j]);
    assert pieces[..j + 1] == pieces[..j] + [pieces[j]];
    Associate(before, Addresses(pieces[..j]), if Trim(pieces[j]) == "" then [] else [Trim(pieces[j])]);
  }

  // ---- join and split undo each other ----

  predicate CommaFree(s: string) { ',' !in s }

  /** An address the queue column carries unharmed. */
  predicate Clean(s: string) {
    s != "" && CommaFree(s) && !White(s[0]) && !White(s[|s| - 1])
  }

  lemma SplitStep(s: string, sep: char, c: char)
    ensures Split(s + [c], sep) == if c == sep then Split(s, sep) + [""] else Grow(Split(s, sep), [c])
  {
  }

  lemma {:induction false} SplitTail(s: string, sep: char, t: string)
    requires sep !in t
    ensures Split(s + t, sep) == Grow(Split(s, sep), t)
  {
    var pieces := Split(s, sep);
    if t == "" {
      assert s + t == s;
      assert pieces[|pieces| - 1] + t == pieces[|pieces| - 1];
    } else {
      SplitTail(s, sep, t[..|t| - 1]);
      SplitTailStep(s, sep, t[..|t| - 1], t[|t| - 1]);
      assert t == t[..|t| - 1] + [t[|t| - 1]];
    }
  }

  lemma SplitTailStep(s: string, sep: char, t: string, c: char)
    requires c != sep && Split(s + t, sep) == Grow(Split(s, sep), t)
    ensures Split(s + (t + [c]), sep) == Grow(Split(s, sep), t + [c])
  {
    assert s + (t + [c]) == s + t + [c];
    SplitStep(s + t, sep, c);
    GrowTwice(Split(s, sep), t, [c]);
  }

  /** The pieces of a joined list: each address, all but the first behind the joining space. */
  function Pieces(parts: seq<string>): seq<string> {
    seq(|parts|, i requires 0 <= i < |parts| => if i == 0 then parts[0] else " " + parts[i])
  }

  lemma JoinStep(init: seq<string>, last: string)
    requires init != []
    ensures Join(init + [last], ", ") == Join(init, ", ") + [','] + (" " + last)
    ensures Pieces(init + [last]) == Pieces(init) + [" " + last]
  {
  }

  lemma {:induction false} SplitJoined(parts: seq<string>)
    requires parts != [] && forall p :: p in parts ==> CommaFree(p)
    ensures Split(Join(parts, ", "), ',') == Pieces(parts)
  {
    var init, last := parts[..|parts| - 1], parts[|parts| - 1];
    assert CommaFree(last) && parts == init + [last];
    if init == [] {
      SplitTail("", ',', last);
      assert "" + last == last;
    } else {
      SplitJoined(init);
      SplitOneMore(init, last);
    }
  }

  lemma SplitOneMore(init: seq<string>, last: string)
    requires init != [] && CommaFree(last) && Split(Join(init, ", "), ',') == Pieces(init)
    ensures Split(Join(init + [last], ", "), ',') == Pieces(init + [last])
  {
    JoinStep(init, last);
    var joined, piece := Join(init, ", "), " " + last;
    SplitStep(joined, ',', ',');
    SplitTail(joined + [','], ',', piece);
    GrowEmpty(Pieces(init), piece);
  }

  lemma GrowEmpty(pieces: seq<string>, t: string)
    ensures Grow(pieces + [""], t) == pieces + [t]
  {
    assert "" + t == t;
  }

  lemma TrimIgnoresLeadingSpace(s: string)
    ensures Trim(" " + s) == Trim(s)
  {
  }

  lemma {:induction false} PiecesTrimmed(parts: seq<string>)
    ensures Addresses(Pieces(parts)) == Addresses(parts)
  {
    if parts != [] {
      var init, last := parts[..|parts| - 1], parts[|parts| - 1];
      PiecesTrimmed(init);
      var piece := if init == [] then last else " " + last;
      assert Pieces(parts) == Pieces(init) + [piece];
      TrimIgnoresLeadingSpace(last);
      AddressesStep(Pieces(init), piece);
    }
  }

  /** For comma-free addresses the split of the joined column is the trimmed non-blank
      addresses in order. */
  lemma JoinThenSplit(parts: seq<string>)
    requires forall p :: p in parts ==> CommaFree(p)
    ensures Envelope(Some(Join(parts, ", ")), None) == Addresses(parts)
  {
    if parts == [] {
      assert Split("", ',') == [""];
    } else {
      SplitJoined(parts);
      PiecesTrimmed(parts);
    }
  }

  lemma TrimOfClean(s: string)
    requires Clean(s)
    ensures Trim(s) == s
  {
  }

  lemma {:induction false} CleanKept(parts: seq<string>)
    requires forall p :: p in parts ==> Clean(p)
    ensures Addresses(parts) == parts
  {
    if parts != [] {
      var init, last := parts[..|parts| - 1], parts[|parts| - 1];
      CleanKept(init);
      TrimOfClean(last);
      AddressesStep(init, last);
      assert parts == init + [last];
    }
  }

  lemma {:induction false} SplitIsSeparatorFree(s: string, sep: char)
    ensures forall p :: p in Split(s, sep) ==> sep !in p
  {
    if s != "" {
      var init, c := s[..|s| - 1], s[|s| - 1];
      SplitIsSeparatorFree(init, sep);
      SplitStep(init, sep, c);
      assert s == init + [c];
    }
  }

  lemma {:induction false} TrimStartFacts(s: string)
    ensures forall c :: c in TrimStart(s) ==> c in s
    ensures TrimStart(s) != "" ==> !White(TrimStart(s)[0])
  {
    if s != [] && White(s[0]) {
      TrimStartFacts(s[1..]);
    }
  }

  lemma {:induction false} TrimEndFacts(s: string)
    ensures TrimEnd(s) <= s
    ensures TrimEnd(s) != "" ==> !White(TrimEnd(s)[|TrimEnd(s)| - 1])
  {
    if s != [] && White(s[|s| - 1]) {
      TrimEndFacts(s[..|s| - 1]);
    }
  }

  lemma TrimKeepsCommaFree(s: string)
    requires CommaFree(s)
    ensures Trim(s) != "" ==> Clean(Trim(s))
  {
    TrimStartFacts(s);
    TrimEndFacts(TrimStart(s));
  }

  lemma {:induction false} AddressesAreClean(pieces: seq<string>)
    requires forall p :: p in pieces ==> CommaFree(p)
    ensures forall a :: a in Addresses(pieces) ==> Clean(a)
  {
    if pieces != [] {
      var init, last := pieces[..|pieces| - 1], pieces[|pieces| - 1];
      AddressesAreClean(init);
      TrimKeepsCommaFree(last);
      AddressesStep(init, last);
      assert pieces == init + [last];
    }
  }

  /** Whatever the columns hold, every envelope recipient is a clean address. */
  lemma EnvelopeIsClean(to: Option<string>, cc: Option<string>)
    ensures forall a :: a in Envelope(to, cc) ==> Clean(a)
  {
    if to.Some? {
      SplitIsSeparatorFree(to.value, ',');
      AddressesAreClean(Split(to.value, ','));
    }
    if cc.Some? {
      SplitIsSeparatorFree(cc.value, ',');
      AddressesAreClean(Split(cc.value, ','));
    }
  }

  /** The exact condition: the transport gets back the addresses that were queued if and only
      if every one of them is clean (an address with a comma in it is torn apart). */
  lemma RoundTripIffClean(parts: seq<string>)
    ensures Envelope(Some(Join(parts, ", ")), None) == parts <==> forall p :: p in parts ==> Clean(p)
  {
    if forall p :: p in parts ==> Clean(p) {
      JoinThenSplit(parts);
      CleanKept(parts);
    } else {
      EnvelopeIsClean(Some(Join(parts, ", ")), None);
    }
  }
}
