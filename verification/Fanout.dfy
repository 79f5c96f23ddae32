/** Recipients grouped by notification channel, and the notifications they get
    (src/application/service/message_write_service.rs). */
module Fanout {
  import opened Prelude
  import opened Events

  datatype Channel = Inbox | Email | Texting

  datatype Recipient = Recipient(partner: Option<Uuid>, channel: Channel, email: Option<string>, number: Option<string>)

  datatype Status = SentAtOnce | Ready

  datatype Notification = Notification(
    message: nat, partner: Option<Uuid>, channel: Channel, status: Status, mail: Option<nat>)

  function On(c: Channel): Recipient -> bool { (r: Recipient) => r.channel == c }

  /** The recipients of one channel, in the order given. */
  function InChannel(c: Channel, rs: seq<Recipient>): seq<Recipient> { Filter(On(c), rs) }

  /** The channels in use, each once, in the order they first appear. */
  function Channels(rs: seq<Recipient>): seq<Channel> {
    if rs == [] then []
    else
      var before, c := Channels(rs[..|rs| - 1]), rs[|rs| - 1].channel;
      if c in before then before else before + [c]
  }

  function Groups(rs: seq<Recipient>): seq<(Channel, seq<Recipient>)> {
    GroupsOver(Channels(rs), rs)
  }

  function GroupsOver(cs: seq<Channel>, rs: seq<Recipient>): seq<(Channel, seq<Recipient>)> {
    seq(|cs|, i requires 0 <= i < |cs| => (cs[i], InChannel(cs[i], rs)))
  }

  /** The groups one after the other. */
  function FanOver(cs: seq<Channel>, rs: seq<Recipient>): seq<Recipient> {
    if cs == [] then [] else FanOver(cs[..|cs| - 1], rs) + InChannel(cs[|cs| - 1], rs)
  }

  /** The recipients in the order their notifications are minted. */
  function Fanned(rs: seq<Recipient>): seq<Recipient> { FanOver(Channels(rs), rs) }

  /** How many recipients are served before the group of channel `c`. */
  function Ahead(c: Channel, cs: seq<Channel>, rs: seq<Recipient>): nat {
    if cs == [] then 0
    else if c in cs[..|cs| - 1] then Ahead(c, cs[..|cs| - 1], rs)
    else |FanOver(cs[..|cs| - 1], rs)|
  }

  function NoteFor(message: nat, mail: nat, r: Recipient): Notification {
    Notification(message, r.partner, r.channel,
      if r.channel == Inbox then SentAtOnce else Ready,
      if r.channel == Email then Some(mail) else None)
  }

  function NotesFor(message: nat, mail: nat, rs: seq<Recipient>): seq<Notification> {
    seq(|rs|, i requires 0 <= i < |rs| => NoteFor(message, mail, rs[i]))
  }

  // ---- the unique index on (message, partner), inbox and email only ----

  predicate SameKey(a: Notification, b: Notification) {
    a.message == b.message && a.partner.Some? && a.partner == b.partner && a.channel != Texting && b.channel != Texting
  }

  ghost predicate UniqueKeys(notes: seq<Notification>) {
    forall i, j :: 0 <= i < j < |notes| ==> !SameKey(notes[i], notes[j])
  }

  predicate SamePartner(a: Recipient, b: Recipient) {
    a.partner.Some? && a.partner == b.partner && a.channel != Texting && b.channel != Texting
  }

  predicate NoPartnerTwice(rs: seq<Recipient>) {
    forall i, j :: 0 <= i < j < |rs| ==> !SamePartner(rs[i], rs[j])
  }

  lemma UniqueKeysStep(notes: seq<Notification>, n: Notification)
    requires UniqueKeys(notes)
    ensures UniqueKeys(notes + [n]) <==> forall k :: 0 <= k < |notes| ==> !SameKey(notes[k], n)
  {
    var all := notes + [n];
    if UniqueKeys(all) {
      forall k | 0 <= k < |notes|
        ensures !SameKey(notes[k], n)
      {
        assert !SameKey(all[k], all[|notes|]);
      }
    }
  }

  lemma NotesStep(notes: seq<Notification>, message: nat, mail: nat, rs: seq<Recipient>, i: nat)
    requires i < |rs|
    ensures notes + NotesFor(message, mail, rs[..i + 1])
      == notes + NotesFor(message, mail, rs[..i]) + [NoteFor(message, mail, rs[i])]
  {
  }

  lemma UniqueKeysPrefix(notes: seq<Notification>, message: nat, mail: nat, rs: seq<Recipient>, i: nat)
    requires i <= |rs| && !UniqueKeys(notes + NotesFor(message, mail, rs[..i]))
    ensures !UniqueKeys(notes + NotesFor(message, mail, rs))
  {
    var some := notes + NotesFor(message, mail, rs[..i]);
    var j, k :| 0 <= j < k < |some| && SameKey(some[j], some[k]);
    var all := notes + NotesFor(message, mail, rs);
    assert some[j] == all[j] && some[k] == all[k];
  }

  /** For a new message the index refuses exactly the lists that name a partner twice. */
  lemma NewKeysAreUniqueIff(notes: seq<Notification>, message: nat, mail: nat, rs: seq<Recipient>)
    requires UniqueKeys(notes) && forall n :: n in notes ==> n.message < message
    ensures UniqueKeys(notes + NotesFor(message, mail, rs)) <==> NoPartnerTwice(rs)
  {
    var all, k := notes + NotesFor(message, mail, rs), |notes|;
    assert forall i :: 0 <= i < |rs| ==> all[k + i] == NoteFor(message, mail, rs[i]);
    if UniqueKeys(all) {
      forall i, j | 0 <= i < j < |rs|
        ensures !SamePartner(rs[i], rs[j])
      {
        assert !SameKey(all[k + i], all[k + j]);
      }
    }
    if NoPartnerTwice(rs) {
      forall i, j | 0 <= i < j < |all|
        ensures !SameKey(all[i], all[j])
      {
        if j < k {
          assert !SameKey(notes[i], notes[j]);
        } else if i < k {
          assert all[i] in notes;
        } else {
          assert !SamePartner(rs[i - k], rs[j - k]);
        }
      }
    }
  }

  // ---- grouping is a stable partition ----

  lemma {:induction false} InChannelEmpty(c: Channel, rs: seq<Recipient>)
    ensures c in Channels(rs) <==> InChannel(c, rs) != []
  {
    if rs != [] {
      InChannelEmpty(c, rs[..|rs| - 1]);
    }
  }

  lemma {:induction false} ChannelsDistinct(rs: seq<Recipient>)
    ensures Distinct(Channels(rs))
  {
    if rs != [] {
      ChannelsDistinct(rs[..|rs| - 1]);
    }
  }

  lemma ChannelsFacts(rs: seq<Recipient>)
    ensures Distinct(Channels(rs))
    ensures forall c :: c in Channels(rs) <==> InChannel(c, rs) != []
  {
  }

  /** One more recipient whose channel is in use: its group grows at the end. */
  lemma GroupGrows(rs: seq<Recipient>, r: Recipient, k: nat)
    requires k < |Groups(rs)| && Groups(rs)[k].0 == r.channel
    ensures Groups(rs + [r]) == Groups(rs)[k := (r.channel, Groups(rs)[k].1 + [r])]
  {
    var all, cs := rs + [r], Channels(rs);
    assert all[..|rs|] == rs && cs[k] == r.channel;
    ChannelsDistinct(rs);
    forall j | 0 <= j < |cs|
      ensures InChannel(cs[j], all) == if j == k then InChannel(cs[j], rs) + [r] else InChannel(cs[j], rs)
    {
      FilterStep(On(cs[j]), rs, r);
    }
  }

  /** One more recipient whose channel is new: a group of one opens at the end. */
  lemma GroupOpens(rs: seq<Recipient>, r: Recipient)
    requires forall k :: 0 <= k < |Groups(rs)| ==> Groups(rs)[k].0 != r.channel
    ensures Groups(rs + [r]) == Groups(rs) + [(r.channel, [r])]
  {
    var all, cs := rs + [r], Channels(rs);
    assert all[..|rs|] == rs;
    forall k | 0 <= k < |cs|
      ensures cs[k] != r.channel && InChannel(cs[k], all) == InChannel(cs[k], rs)
    {
      assert Groups(rs)[k].0 == cs[k];
      FilterStep(On(cs[k]), rs, r);
    }
    InChannelEmpty(r.channel, rs);
    FilterStep(On(r.channel), rs, r);
    assert Channels(all) == cs + [r.channel] && InChannel(r.channel, all) == [r];
  }

  lemma {:induction false} FilterCount(p: Recipient -> bool, s: seq<Recipient>, r: Recipient)
    ensures multiset(Filter(p, s))[r] == if p(r) then multiset(s)[r] else 0
  {
    if s != [] {
      FilterCount(p, s[..|s| - 1], r);
      assert s == s[..|s| - 1] + [s[|s| - 1]];
    }
  }

  lemma {:induction false} FanCount(cs: seq<Channel>, rs: seq<Recipient>, r: Recipient)
    requires Distinct(cs)
    ensures multiset(FanOver(cs, rs))[r] == if r.channel in cs then multiset(rs)[r] else 0
  {
    if cs != [] {
      var init, c := cs[..|cs| - 1], cs[|cs| - 1];
      assert cs == init + [c];
      FanCount(init, rs, r);
      FilterCount(On(c), rs, r);
    }
  }

  /** Nobody is dropped, nobody is served twice. */
  lemma FannedIsPermutation(rs: seq<Recipient>)
    ensures multiset(Fanned(rs)) == multiset(rs) && |Fanned(rs)| == |rs|
  {
    ChannelsFacts(rs);
    forall r
      ensures multiset(Fanned(rs))[r] == multiset(rs)[r]
    {
      FanCount(Channels(rs), rs, r);
      FilterCount(On(r.channel), rs, r);
    }
    assert |multiset(Fanned(rs))| == |Fanned(rs)| && |multiset(rs)| == |rs|;
  }

  lemma {:induction false} FilterAgain(c: Channel, d: Channel, rs: seq<Recipient>)
    ensures InChannel(c, InChannel(d, rs)) == if c == d then InChannel(d, rs) else []
  {
    if rs != [] {
      var init, r := rs[..|rs| - 1], rs[|rs| - 1];
      FilterAgain(c, d, init);
      FilterStep(On(c), InChannel(d, init), r);
    }
  }

  lemma {:induction false} FanIsStable(c: Channel, cs: seq<Channel>, rs: seq<Recipient>)
    requires Distinct(cs)
    ensures InChannel(c, FanOver(cs, rs)) == if c in cs then InChannel(c, rs) else []
  {
    if cs != [] {
      var init, d := cs[..|cs| - 1], cs[|cs| - 1];
      assert cs == init + [d];
      FanIsStable(c, init, rs);
      FilterAgain(c, d, rs);
      FilterConcat(On(c), FanOver(init, rs), InChannel(d, rs));
    }
  }

  /** Where `c` first occurs among the recipients. */
  function FirstAt(c: Channel, rs: seq<Recipient>): nat {
    if rs == [] then 0 else if rs[0].channel == c then 0 else 1 + FirstAt(c, rs[1..])
  }

  lemma {:induction false} FirstAtStep(c: Channel, rs: seq<Recipient>, r: Recipient)
    ensures FirstAt(c, rs + [r])
      == if FirstAt(c, rs) < |rs| then FirstAt(c, rs) else if r.channel == c then |rs| else |rs| + 1
    ensures FirstAt(c, rs) <= |rs|
  {
    if rs != [] {
      assert (rs + [r])[1..] == rs[1..] + [r];
      FirstAtStep(c, rs[1..], r);
    }
  }

  lemma {:induction false} ChannelsInOrder(rs: seq<Recipient>)
    ensures forall i, j :: 0 <= i < j < |Channels(rs)| ==> FirstAt(Channels(rs)[i], rs) < FirstAt(Channels(rs)[j], rs)
    ensures forall c :: c in Channels(rs) ==> FirstAt(c, rs) < |rs|
  {
    if rs != [] {
      var init, r := rs[..|rs| - 1], rs[|rs| - 1];
      ChannelsInOrder(init);
      assert rs == init + [r];
      forall c
        ensures FirstAt(c, rs)
          == if FirstAt(c, init) < |init| then FirstAt(c, init) else if r.channel == c then |init| else |rs|
        ensures FirstAt(c, init) <= |init| && (FirstAt(c, init) < |init| ==> c in Channels(init))
      {
        FirstAtStep(c, init, r);
        FirstAtUsed(c, init);
      }
    }
  }

  lemma {:induction false} FirstAtUsed(c: Channel, rs: seq<Recipient>)
    ensures FirstAt(c, rs) < |rs| ==> c in Channels(rs)
  {
    if rs != [] {
      var init, r := rs[..|rs| - 1], rs[|rs| - 1];
      assert rs == init + [r];
      FirstAtUsed(c, init);
      FirstAtStep(c, init, r);
    }
  }

  /** Grouping is a stable partition: channels once each, in first-appearance order; inside a
      channel the given order; everybody exactly once over all groups. */
  lemma GroupingIsStablePartition(rs: seq<Recipient>)
    ensures Distinct(Channels(rs))
    ensures forall i, j :: 0 <= i < j < |Channels(rs)| ==> FirstAt(Channels(rs)[i], rs) < FirstAt(Channels(rs)[j], rs)
    ensures multiset(Fanned(rs)) == multiset(rs)
    ensures forall c :: InChannel(c, Fanned(rs)) == InChannel(c, rs)
  {
    ChannelsFacts(rs);
    ChannelsInOrder(rs);
    FannedIsPermutation(rs);
    forall c
      ensures InChannel(c, Fanned(rs)) == InChannel(c, rs)
    {
      FanIsStable(c, Channels(rs), rs);
    }
  }

  // ---- naming a partner twice does not depend on the order ----

  predicate PartnerOnce(rs: multiset<Recipient>) {
    forall a, b :: a in rs && b in rs && SamePartner(a, b) ==> a == b && rs[a] == 1
  }

  lemma {:induction false} CountedTwice(rs: seq<Recipient>, r: Recipient)
    ensures multiset(rs)[r] >= 2 <==> exists i, j :: 0 <= i < j < |rs| && rs[i] == r == rs[j]
  {
    if rs != [] {
      var init, last := rs[..|rs| - 1], rs[|rs| - 1];
      assert rs == init + [last];
      CountedTwice(init, r);
      if multiset(rs)[r] >= 2 && multiset(init)[r] < 2 {
        assert r in init && r == last;
        var i :| 0 <= i < |init| && init[i] == r;
        assert rs[i] == r == rs[|rs| - 1];
      }
    }
  }

  lemma TwiceIsAboutContents(rs: seq<Recipient>)
    ensures NoPartnerTwice(rs) <==> PartnerOnce(multiset(rs))
  {
    if NoPartnerTwice(rs) {
      forall a, b | a in multiset(rs) && b in multiset(rs) && SamePartner(a, b)
        ensures a == b && multiset(rs)[a] == 1
      {
        assert a in rs && b in rs;
        var i :| 0 <= i < |rs| && rs[i] == a;
        var j :| 0 <= j < |rs| && rs[j] == b;
        CountedTwice(rs, a);
      }
    } else {
      var i, j :| 0 <= i < j < |rs| && SamePartner(rs[i], rs[j]);
      CountedTwice(rs, rs[i]);
      assert rs[i] in multiset(rs) && rs[j] in multiset(rs);
    }
  }

  lemma FanningKeepsPartnersApart(rs: seq<Recipient>)
    ensures NoPartnerTwice(Fanned(rs)) <==> NoPartnerTwice(rs)
  {
    FannedIsPermutation(rs);
    TwiceIsAboutContents(rs);
    TwiceIsAboutContents(Fanned(rs));
  }
}
