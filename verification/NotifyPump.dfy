/** Posting a message and fanning it out to its recipients, channel by channel, in one transaction
    (src/application/service/message_write_service.rs). */
module NotifyPump {
  import opened Prelude
  import opened Events
  import opened Recipients
  import opened Fanout
  import SmsQueue

  /** The messages, notifications, mails, sms and outbox tables; a row's position is its id. */
  datatype Tables = Tables(
    messages: seq<Message>, notes: seq<Notification>, mails: seq<Mail>, sms: seq<Sms>, events: seq<Event>)

  datatype Message = Message(body: string, model: Option<string>, resId: Option<Uuid>)

  datatype Mail = Mail(message: nat, emailTo: string, replyTo: Option<string>)

  /** Minted with each sms row: the tracker that ties it to its notification. */
  datatype Tracker = Tracker(message: nat, notification: nat, state: SmsQueue.NotificationStatus)

  datatype Sms = Sms(message: nat, number: string, body: string, tracker: Tracker)

  datatype ChannelKey = RecordChannel(model: string, resId: Uuid) | MessageChannel(message: nat)

  datatype Event =
    | MessagePosted(key: ChannelKey, message: nat, notifications: nat)
    | SmsCreated(key: ChannelKey, sms: nat)

  datatype Command = Command(
    body: string, model: Option<string>, resId: Option<Uuid>, replyTo: Option<string>, recipients: seq<Recipient>)

  datatype Posted = Posted(message: nat, notifications: seq<nat>, mail: Option<nat>, sms: seq<nat>)

  datatype PostError = NoBody | HalfAnEdge | NoAddress | NoNumber | Refused

  /** The database's check on required text: something other than spaces. */
  predicate HasText(s: string) { exists c :: c in s && c != ' ' }

  predicate Reachable(r: Recipient) {
    match r.channel
    case Inbox => true
    case Email => r.email.Some?
    case Texting => r.number.Some? && HasText(r.number.value)
  }

  /** What a post needs: a body, both halves of the thread edge or neither, a way to reach every
      recipient, and no partner addressed twice by inbox or email. */
  predicate Acceptable(cmd: Command) {
    && Trim(cmd.body) != ""
    && (cmd.model.Some? <==> cmd.resId.Some?)
    && (forall r :: r in cmd.recipients ==> Reachable(r))
    && NoPartnerTwice(cmd.recipients)
  }

  function Emails(rs: seq<Recipient>): seq<string> {
    seq(|rs|, i requires 0 <= i < |rs| => if rs[i].email.Some? then rs[i].email.value else "")
  }

  function Range(from: nat, n: nat): seq<nat> {
    seq(n, i requires 0 <= i < n => from + i)
  }

  function MailFor(message: nat, replyTo: Option<string>, rs: seq<Recipient>): Mail {
    Mail(message, Join(Emails(rs), ", "), replyTo)
  }

  function TrackerFor(message: nat, notification: nat): Tracker { Tracker(message, notification, SmsQueue.NProcess) }

  function SmsFor(message: nat, body: string, first: nat, rs: seq<Recipient>): seq<Sms> {
    seq(|rs|, i requires 0 <= i < |rs| =>
      Sms(message, if rs[i].number.Some? then rs[i].number.value else "", body, TrackerFor(message, first + i)))
  }

  function KeyFor(cmd: Command, message: nat): ChannelKey {
    if cmd.model.Some? && cmd.resId.Some? then RecordChannel(cmd.model.value, cmd.resId.value)
    else MessageChannel(message)
  }

  function CreatedEvents(key: ChannelKey, ids: seq<nat>): seq<Event> {
    seq(|ids|, i requires 0 <= i < |ids| => SmsCreated(key, ids[i]))
  }

  /** The rows the email strategy adds, once it has run. */
  function MailRows(db: Tables, cmd: Command, cs: seq<Channel>): seq<Mail> {
    if Email in cs then [MailFor(|db.messages|, cmd.replyTo, InChannel(Email, cmd.recipients))] else []
  }

  /** The rows the sms strategy adds, once it has run. */
  function SmsRows(db: Tables, cmd: Command, cs: seq<Channel>): seq<Sms> {
    if Texting !in cs then []
    else
      var ahead := Ahead(Texting, cs, cmd.recipients);
      SmsFor(|db.messages|, cmd.body, |db.notes| + ahead, InChannel(Texting, cmd.recipients))
  }

  /** The tables when the message row is in and the groups of `cs` have been dispatched. */
  function PumpedTables(db: Tables, cmd: Command, cs: seq<Channel>): Tables {
    Tables(
      db.messages + [Message(cmd.body, cmd.model, cmd.resId)],
      db.notes + NotesFor(|db.messages|, |db.mails|, FanOver(cs, cmd.recipients)),
      db.mails + MailRows(db, cmd, cs),
      db.sms + SmsRows(db, cmd, cs),
      db.events)
  }

  /** `MessagePosted` with its notification count, then one `SmsCreated` per sms row. */
  function PostEvents(db: Tables, cmd: Command): seq<Event> {
    var message, key := |db.messages|, KeyFor(cmd, |db.messages|);
    [MessagePosted(key, message, |cmd.recipients|)]
      + CreatedEvents(key, Range(|db.sms|, |InChannel(Texting, cmd.recipients)|))
  }

  /** The tables after a successful post. */
  function PostedTables(db: Tables, cmd: Command): Tables {
    PumpedTables(db, cmd, Channels(cmd.recipients)).(events := db.events + PostEvents(db, cmd))
  }

  /** Notifications speak of messages that exist, and the unique index holds. */
  ghost predicate Sound(db: Tables) {
    && UniqueKeys(db.notes)
    && forall n :: n in db.notes ==> n.message < |db.messages|
  }

  lemma SmsStep(sms: seq<Sms>, message: nat, body: string, first: nat, rs: seq<Recipient>, i: nat)
    requires i < |rs| && rs[i].number.Some?
    ensures sms + SmsFor(message, body, first, rs[..i + 1])
         == sms + SmsFor(message, body, first, rs[..i])
            + [Sms(message, rs[i].number.value, body, TrackerFor(message, first + i))]
  {
  }

  lemma NotesAssociate(notes: seq<Notification>, message: nat, mail: nat, a: seq<Recipient>, b: seq<Recipient>)
    ensures notes + NotesFor(message, mail, a + b) == (notes + NotesFor(message, mail, a)) + NotesFor(message, mail, b)
  {
  }

  lemma FanStep(cs: seq<Channel>, c: Channel, rs: seq<Recipient>)
    ensures FanOver(cs + [c], rs) == FanOver(cs, rs) + InChannel(c, rs)
  {
  }

  lemma AheadStep(cs: seq<Channel>, c: Channel, rs: seq<Recipient>)
    requires c !in cs
    ensures Ahead(c, cs + [c], rs) == |FanOver(cs, rs)|
    ensures forall d :: d in cs ==> Ahead(d, cs + [c], rs) == Ahead(d, cs, rs)
  {
  }

  /** What the group of channel `c` adds to the mails and to the sms table. */
  function GroupMail(db: Tables, cmd: Command, c: Channel): seq<Mail> {
    if c == Email then [MailFor(|db.messages|, cmd.replyTo, InChannel(c, cmd.recipients))] else []
  }

  function GroupSms(db: Tables, cmd: Command, ahead: nat, c: Channel): seq<Sms> {
    if c == Texting then SmsFor(|db.messages|, cmd.body, |db.notes| + ahead, InChannel(c, cmd.recipients)) else []
  }

  lemma MailRowsStep(db: Tables, cmd: Command, cs: seq<Channel>, c: Channel)
    requires c !in cs
    ensures MailRows(db, cmd, cs + [c]) == MailRows(db, cmd, cs) + GroupMail(db, cmd, c)
  {
  }

  lemma SmsRowsStep(db: Tables, cmd: Command, cs: seq<Channel>, c: Channel)
    requires c !in cs
    ensures SmsRows(db, cmd, cs + [c]) == SmsRows(db, cmd, cs) + GroupSms(db, cmd, |FanOver(cs, cmd.recipients)|, c)
  {
    if c == Texting {
      SmsRowsBegin(db, cmd, cs);
    } else {
      SmsRowsStay(db, cmd, cs, c);
    }
  }

  lemma SmsRowsBegin(db: Tables, cmd: Command, cs: seq<Channel>)
    requires Texting !in cs
    ensures SmsRows(db, cmd, cs) == []
    ensures SmsRows(db, cmd, cs + [Texting]) == GroupSms(db, cmd, |FanOver(cs, cmd.recipients)|, Texting)
  {
    AheadStep(cs, Texting, cmd.recipients);
    assert Texting in cs + [Texting];
  }

  lemma SmsRowsStay(db: Tables, cmd: Command, cs: seq<Channel>, c: Channel)
    requires c !in cs && c != Texting
    ensures SmsRows(db, cmd, cs + [c]) == SmsRows(db, cmd, cs)
  {
    AheadStep(cs, c, cmd.recipients);
    assert Texting in cs + [c] <==> Texting in cs;
  }

  /** One more group dispatched. */
  lemma PumpStep(db: Tables, cmd: Command, cs: seq<Channel>, c: Channel)
    requires c !in cs
    ensures PumpedTables(db, cmd, cs + [c]).notes
         == PumpedTables(db, cmd, cs).notes + NotesFor(|db.messages|, |db.mails|, InChannel(c, cmd.recipients))
    ensures PumpedTables(db, cmd, cs + [c]).mails == PumpedTables(db, cmd, cs).mails + GroupMail(db, cmd, c)
    ensures PumpedTables(db, cmd, cs + [c]).sms
         == PumpedTables(db, cmd, cs).sms + GroupSms(db, cmd, |FanOver(cs, cmd.recipients)|, c)
  {
    var rs := cmd.recipients;
    FanStep(cs, c, rs);
    NotesAssociate(db.notes, |db.messages|, |db.mails|, FanOver(cs, rs), InChannel(c, rs));
    MailRowsStep(db, cmd, cs, c);
    Associate(db.mails, MailRows(db, cmd, cs), GroupMail(db, cmd, c));
    SmsRowsStep(db, cmd, cs, c);
    Associate(db.sms, SmsRows(db, cmd, cs), GroupSms(db, cmd, |FanOver(cs, rs)|, c));
  }

  /** What a strategy leaves behind for the group of `c` is the next state of the pump. */
  lemma GroupPumped(db: Tables, cmd: Command, cs: seq<Channel>, c: Channel, now: Tables, served: Tables)
    requires c !in cs && now == PumpedTables(db, cmd, cs)
    requires served == Served(now, |db.messages|, |db.mails|, cmd, c, InChannel(c, cmd.recipients))
    ensures served == PumpedTables(db, cmd, cs + [c])
  {
    PumpStep(db, cmd, cs, c);
    assert |now.notes| == |db.notes| + |FanOver(cs, cmd.recipients)|;
  }

  /** A group served: its notifications, and the mail row or the sms rows of its channel. */
  function Served(now: Tables, message: nat, mail: nat, cmd: Command, c: Channel, rs: seq<Recipient>): Tables {
    now.(notes := now.notes + NotesFor(message, mail, rs),
         mails := now.mails + (if c == Email then [MailFor(message, cmd.replyTo, rs)] else []),
         sms := now.sms + (if c == Texting then SmsFor(message, cmd.body, |now.notes|, rs) else []))
  }

  lemma EmailIsFirst(db: Tables, cmd: Command, cs: seq<Channel>, c: Channel)
    requires c !in cs && c == Email
    ensures |PumpedTables(db, cmd, cs).mails| == |db.mails|
  {
  }

  lemma NoGroupsPumped(db: Tables, cmd: Command)
    ensures PumpedTables(db, cmd, []) == db.(messages := db.messages + [Message(cmd.body, cmd.model, cmd.resId)])
  {
  }

  lemma {:induction false} FanPrefix(cs: seq<Channel>, g: nat, rs: seq<Recipient>)
    requires g <= |cs|
    ensures FanOver(cs[..g], rs) <= FanOver(cs, rs)
  {
    if g < |cs| {
      FanPrefix(cs[..|cs| - 1], g, rs);
      assert cs[..|cs| - 1][..g] == cs[..g];
    } else {
      assert cs[..g] == cs;
    }
  }

  /** A group that cannot be dispatched makes the whole command unacceptable. */
  lemma GroupRefused(db: Tables, cmd: Command, g: nat)
    requires Sound(db) && g < |Channels(cmd.recipients)|
    requires (exists r :: r in InChannel(Channels(cmd.recipients)[g], cmd.recipients) && !Reachable(r))
      || !UniqueKeys(PumpedTables(db, cmd, Channels(cmd.recipients)[..g + 1]).notes)
    ensures !Acceptable(cmd)
  {
    var rs, cs := cmd.recipients, Channels(cmd.recipients);
    if NoPartnerTwice(rs) && !UniqueKeys(PumpedTables(db, cmd, cs[..g + 1]).notes) {
      FanPrefix(cs, g + 1, rs);
      var some := FanOver(cs[..g + 1], rs);
      assert some == Fanned(rs)[..|some|];
      UniqueKeysPrefix(db.notes, |db.messages|, |db.mails|, Fanned(rs), |some|);
      NewKeysAreUniqueIff(db.notes, |db.messages|, |db.mails|, Fanned(rs));
      FanningKeepsPartnersApart(rs);
    }
  }

  lemma NextChannel(cs: seq<Channel>, g: nat)
    requires g < |cs| && Distinct(cs)
    ensures cs[..g + 1] == cs[..g] + [cs[g]] && cs[g] !in cs[..g]
  {
  }

  lemma NotPumped(db: Tables, cmd: Command, g: nat)
    requires Sound(db) && g < |Channels(cmd.recipients)|
    requires (var group := InChannel(Channels(cmd.recipients)[g], cmd.recipients);
      (exists r :: r in group && !Reachable(r))
      || !UniqueKeys(PumpedTables(db, cmd, Channels(cmd.recipients)[..g]).notes
                     + NotesFor(|db.messages|, |db.mails|, group)))
    ensures !Acceptable(cmd)
  {
    var cs := Channels(cmd.recipients);
    ChannelsDistinct(cmd.recipients);
    NextChannel(cs, g);
    PumpStep(db, cmd, cs[..g], cs[g]);
    GroupRefused(db, cmd, g);
  }

  predicate AllReachable(cs: seq<Channel>, rs: seq<Recipient>) {
    forall c :: c in cs ==> forall r :: r in InChannel(c, rs) ==> Reachable(r)
  }

  lemma OneMoreReachable(cs: seq<Channel>, c: Channel, rs: seq<Recipient>)
    requires AllReachable(cs, rs) && forall r :: r in InChannel(c, rs) ==> Reachable(r)
    ensures AllReachable(cs + [c], rs)
  {
  }

  /** With every group dispatched the command was acceptable. */
  lemma PumpedIsAcceptable(db: Tables, cmd: Command)
    requires Sound(db) && Trim(cmd.body) != "" && (cmd.model.Some? <==> cmd.resId.Some?)
    requires UniqueKeys(PumpedTables(db, cmd, Channels(cmd.recipients)).notes)
    requires AllReachable(Channels(cmd.recipients), cmd.recipients)
    ensures Acceptable(cmd)
  {
    var rs := cmd.recipients;
    NewKeysAreUniqueIff(db.notes, |db.messages|, |db.mails|, Fanned(rs));
    FanningKeepsPartnersApart(rs);
    forall r | r in rs
      ensures Reachable(r)
    {
      assert multiset(rs)[r] > 0;
      FilterCount(On(r.channel), rs, r);
      InChannelEmpty(r.channel, rs);
      assert r in InChannel(r.channel, rs);
    }
  }

  /** After the last group the new rows can be counted. */
  lemma AllGroupsPumped(db: Tables, cmd: Command)
    ensures (var after, rs := PumpedTables(db, cmd, Channels(cmd.recipients)), cmd.recipients;
      && |after.notes| == |db.notes| + |rs|
      && |after.sms| == |db.sms| + |InChannel(Texting, rs)|
      && (|after.mails| > |db.mails| <==> InChannel(Email, rs) != []))
  {
    InChannelEmpty(Email, cmd.recipients);
    InChannelEmpty(Texting, cmd.recipients);
    FannedIsPermutation(cmd.recipients);
  }

  lemma PostIsSound(db: Tables, cmd: Command)
    requires Sound(db) && UniqueKeys(PostedTables(db, cmd).notes)
    ensures Sound(PostedTables(db, cmd))
  {
  }

  lemma {:induction false} SpacesTrimAway(s: string)
    requires forall c :: c in s ==> White(c)
    ensures TrimStart(s) == ""
  {
    if s != "" {
      SpacesTrimAway(s[1..]);
    }
  }

  /** A body that survives trimming always passes the database's own check on sms text. */
  lemma TrimmedHasText(s: string)
    requires Trim(s) != ""
    ensures HasText(s)
  {
    if !HasText(s) {
      SpacesTrimAway(s);
    }
  }

  // ---- what a post conserves ----

  /** The group of a channel lies in the fan-out right behind the groups ahead of it. */
  lemma {:induction false} GroupLiesAhead(c: Channel, cs: seq<Channel>, rs: seq<Recipient>)
    requires c in cs && Distinct(cs)
    ensures Ahead(c, cs, rs) + |InChannel(c, rs)| <= |FanOver(cs, rs)|
    ensures FanOver(cs, rs)[Ahead(c, cs, rs)..][..|InChannel(c, rs)|] == InChannel(c, rs)
  {
    var init, last := cs[..|cs| - 1], cs[|cs| - 1];
    if c in init {
      GroupLiesAhead(c, init, rs);
    }
  }

  lemma EmailRowIff(rs: seq<Recipient>)
    ensures Email in Channels(rs) <==> exists r :: r in rs && r.channel == Email
  {
  }

  /** A successful post mints one notification per recipient, one mail row when anyone is reached
      by email, and one sms row with its event per sms recipient. */
  lemma PostConserves(db: Tables, cmd: Command, after: Tables)
    requires after == PostedTables(db, cmd)
    ensures |after.notes| == |db.notes| + |cmd.recipients|
    ensures |after.mails| == |db.mails| + if exists r :: r in cmd.recipients && r.channel == Email then 1 else 0
    ensures |after.sms| == |db.sms| + |InChannel(Texting, cmd.recipients)|
    ensures |after.events| == |db.events| + 1 + |InChannel(Texting, cmd.recipients)|
  {
    AllGroupsPumped(db, cmd);
    EmailRowIff(cmd.recipients);
  }

  /** Each new sms row is tied to the notification of its own recipient. */
  lemma SmsRowsAreLinked(db: Tables, cmd: Command, after: Tables, k: nat)
    requires after == PostedTables(db, cmd) && k < |InChannel(Texting, cmd.recipients)|
    ensures |db.sms| + k < |after.sms|
    ensures |db.notes| <= after.sms[|db.sms| + k].tracker.notification < |after.notes|
    ensures after.notes[after.sms[|db.sms| + k].tracker.notification]
         == NoteFor(|db.messages|, |db.mails|, InChannel(Texting, cmd.recipients)[k])
  {
    var rs := cmd.recipients;
    InChannelEmpty(Texting, rs);
    ChannelsDistinct(rs);
    GroupLiesAhead(Texting, Channels(rs), rs);
    var ahead, group := Ahead(Texting, Channels(rs), rs), InChannel(Texting, rs);
    SliceAt(Fanned(rs), ahead, group, k);
    SmsRowAt(db, cmd, Channels(rs), k);
    NoteAt(db.notes, |db.messages|, |db.mails|, Fanned(rs), ahead + k);
  }

  lemma SmsRowAt(db: Tables, cmd: Command, cs: seq<Channel>, k: nat)
    requires Texting in cs && k < |InChannel(Texting, cmd.recipients)|
    ensures |SmsRows(db, cmd, cs)| == |InChannel(Texting, cmd.recipients)|
    ensures (db.sms + SmsRows(db, cmd, cs))[|db.sms| + k].tracker.notification
      == |db.notes| + (Ahead(Texting, cs, cmd.recipients) + k)
  {
  }

  lemma SliceAt(all: seq<Recipient>, at: nat, part: seq<Recipient>, k: nat)
    requires at + |part| <= |all| && all[at..][..|part|] == part && k < |part|
    ensures all[at + k] == part[k]
  {
  }

  lemma NoteAt(notes: seq<Notification>, message: nat, mail: nat, rs: seq<Recipient>, k: nat)
    requires k < |rs|
    ensures (notes + NotesFor(message, mail, rs))[|notes| + k] == NoteFor(message, mail, rs[k])
  {
  }

  /** From post to transport: the envelope the drainer later splits out of the queue row is the
      email recipients' addresses, in their order, exactly when every address is clean. */
  lemma EnvelopeIsTheRecipientsIffClean(db: Tables, cmd: Command)
    requires InChannel(Email, cmd.recipients) != []
    ensures PostedTables(db, cmd).mails != []
    ensures (var mail := PostedTables(db, cmd).mails[|PostedTables(db, cmd).mails| - 1];
             var emails := Emails(InChannel(Email, cmd.recipients));
             Envelope(Some(mail.emailTo), None) == emails <==> forall a :: a in emails ==> Clean(a))
  {
    InChannelEmpty(Email, cmd.recipients);
    RoundTripIffClean(Emails(InChannel(Email, cmd.recipients)));
  }

  class MessageWriteService {
    var db: Tables

    constructor ()
      ensures Sound(db) && db == Tables([], [], [], [], [])
    {
      db := Tables([], [], [], [], []);
    }

    /** Distinct channels in the order they first appear, each with its recipients in order. */
    method GroupByChannel(recipients: seq<Recipient>) returns (groups: seq<(Channel, seq<Recipient>)>)
      ensures groups == Groups(recipients)
    {
      groups := [];
      for i := 0 to |recipients|
        invariant groups == Groups(recipients[..i])
      {
        var r := recipients[i];
        assert recipients[..i + 1] == recipients[..i] + [r];
        var k := 0;
        while k < |groups| && groups[k].0 != r.channel
          invariant 0 <= k <= |groups|
          invariant forall j :: 0 <= j < k ==> groups[j].0 != r.channel
        {
          k := k + 1;
        }
        if k < |groups| {
          GroupGrows(recipients[..i], r, k);
          groups := groups[k := (groups[k].0, groups[k].1 + [r])];
        } else {
          GroupOpens(recipients[..i], r);
          groups := groups + [(r.channel, [r])];
        }
      }
      assert recipients[..|recipients|] == recipients;
    }

    /** The unique index on (message, partner) lets the row in or refuses it. */
    method InsertNotification(n: Notification) returns (ok: bool)
      requires UniqueKeys(db.notes)
      modifies this`db
      ensures ok <==> UniqueKeys(old(db).notes + [n])
      ensures db == if ok then old(db).(notes := old(db).notes + [n]) else old(db)
    {
      ok := forall k :: 0 <= k < |db.notes| ==> !SameKey(db.notes[k], n);
      UniqueKeysStep(db.notes, n);
      if ok { db := db.(notes := db.notes + [n]); }
    }

    /** One notification per recipient of the group, or the index refuses one of them. */
    method InsertNotifications(message: nat, mail: nat, rs: seq<Recipient>) returns (ok: bool)
      requires UniqueKeys(db.notes)
      modifies this`db
      ensures ok <==> UniqueKeys(old(db).notes + NotesFor(message, mail, rs))
      ensures ok ==> db == old(db).(notes := old(db).notes + NotesFor(message, mail, rs))
    {
      ghost var was := db;
      assert was.notes + NotesFor(message, mail, []) == was.notes;
      for i := 0 to |rs|
        invariant db == was.(notes := was.notes + NotesFor(message, mail, rs[..i]))
        invariant UniqueKeys(db.notes)
      {
        NotesStep(was.notes, message, mail, rs, i);
        ok := InsertNotification(NoteFor(message, mail, rs[i]));
        if !ok { UniqueKeysPrefix(was.notes, message, mail, rs, i + 1); return; }
      }
      assert rs[..|rs|] == rs;
      return true;
    }

    method EmailStrategy(message: nat, replyTo: Option<string>, rs: seq<Recipient>) returns (error: Option<PostError>)
      requires UniqueKeys(db.notes) && forall r :: r in rs ==> r.channel == Email
      modifies this`db
      ensures error.None? <==>
        (forall r :: r in rs ==> Reachable(r)) && UniqueKeys(old(db).notes + NotesFor(message, |old(db).mails|, rs))
      ensures error.None? ==>
        db == old(db).(notes := old(db).notes + NotesFor(message, |old(db).mails|, rs),
                       mails := old(db).mails + (if rs == [] then [] else [MailFor(message, replyTo, rs)]))
      ensures error != Some(NoBody) && error != Some(HalfAnEdge)
    {
      var addresses: seq<string> := [];
      for i := 0 to |rs|
        invariant addresses == Emails(rs[..i])
        invariant forall r :: r in rs[..i] ==> Reachable(r)
      {
        if rs[i].email.None? {
          assert rs[i] in rs && !Reachable(rs[i]);
          return Some(NoAddress);
        }
        assert rs[..i + 1] == rs[..i] + [rs[i]];
        addresses := addresses + [rs[i].email.value];
      }
      assert rs[..|rs|] == rs;
      if addresses == [] {
        assert db.notes + NotesFor(message, |db.mails|, rs) == db.notes && db.mails + [] == db.mails;
        return None;
      }
      var mail := |db.mails|;
      db := db.(mails := db.mails + [Mail(message, Join(addresses, ", "), replyTo)]);
      var ok := InsertNotifications(message, mail, rs);
      return if ok then None else Some(Refused);
    }

    /** Per recipient: its notification, then its sms row tied to that notification. */
    method SmsStrategy(message: nat, body: string, mail: nat, rs: seq<Recipient>) returns (error: Option<PostError>)
      requires UniqueKeys(db.notes) && HasText(body) && forall r :: r in rs ==> r.channel == Texting
      modifies this`db
      ensures error.None? <==>
        (forall r :: r in rs ==> Reachable(r)) && UniqueKeys(old(db).notes + NotesFor(message, mail, rs))
      ensures error.None? ==>
        db == old(db).(notes := old(db).notes + NotesFor(message, mail, rs),
                       sms := old(db).sms + SmsFor(message, body, |old(db).notes|, rs))
      ensures error != Some(NoBody) && error != Some(HalfAnEdge)
    {
      ghost var was := db;
      assert was.notes + NotesFor(message, mail, []) == was.notes;
      assert was.sms + SmsFor(message, body, |was.notes|, []) == was.sms;
      for i := 0 to |rs|
        invariant db == was.(notes := was.notes + NotesFor(message, mail, rs[..i]),
                             sms := was.sms + SmsFor(message, body, |was.notes|, rs[..i]))
        invariant UniqueKeys(db.notes) && forall r :: r in rs[..i] ==> Reachable(r)
      {
        var r := rs[i];
        assert r in rs && rs[..i + 1] == rs[..i] + [r];
        if r.number.None? { return Some(NoNumber); }
        NotesStep(was.notes, message, mail, rs, i);
        var notification := |db.notes|;
        var ok := InsertNotification(NoteFor(message, mail, r));
        if !ok { UniqueKeysPrefix(was.notes, message, mail, rs, i + 1); return Some(Refused); }
        if !HasText(r.number.value) || !HasText(body) { return Some(Refused); }
        SmsStep(was.sms, message, body, |was.notes|, rs, i);
        db := db.(sms := db.sms + [Sms(message, r.number.value, body, TrackerFor(message, notification))]);
      }
      assert rs[..|rs|] == rs;
      return None;
    }

    method DispatchChannel(message: nat, cmd: Command, mail: nat, c: Channel, rs: seq<Recipient>)
        returns (error: Option<PostError>)
      requires UniqueKeys(db.notes) && HasText(cmd.body) && rs != [] && forall r :: r in rs ==> r.channel == c
      requires c == Email ==> mail == |db.mails|
      modifies this`db
      ensures error.None? <==>
        (forall r :: r in rs ==> Reachable(r)) && UniqueKeys(old(db).notes + NotesFor(message, mail, rs))
      ensures error.None? ==> db == Served(old(db), message, mail, cmd, c, rs)
      ensures error != Some(NoBody) && error != Some(HalfAnEdge)
    {
      match c {
        case Inbox =>
          var ok := InsertNotifications(message, mail, rs);
          error := if ok then None else Some(Refused);
        case Email =>
          error := EmailStrategy(message, cmd.replyTo, rs);
        case Texting =>
          error := SmsStrategy(message, cmd.body, mail, rs);
      }
    }

    /** A post goes through exactly when the command is acceptable, and then the new rows are those
        of `PostedTables`; otherwise the transaction rolls back and no table has changed. */
    method MessagePost(cmd: Command) returns (r: Result<Posted, PostError>)
      requires Sound(db)
      modifies this`db
      ensures Sound(db)
      ensures r.Ok? <==> Acceptable(cmd)
      ensures db == if r.Ok? then PostedTables(old(db), cmd) else old(db)
      ensures r.Ok? ==> r.value == Posted(
        |old(db).messages|, Range(|old(db).notes|, |cmd.recipients|),
        if InChannel(Email, cmd.recipients) == [] then None else Some(|old(db).mails|),
        Range(|old(db).sms|, |InChannel(Texting, cmd.recipients)|))
      ensures r == Err(NoBody) <==> Trim(cmd.body) == ""
      ensures r == Err(HalfAnEdge) <==> Trim(cmd.body) != "" && cmd.model.Some? != cmd.resId.Some?
    {
      if Trim(cmd.body) == "" { return Err(NoBody); }
      if cmd.model.Some? != cmd.resId.Some? { return Err(HalfAnEdge); }
      TrimmedHasText(cmd.body);
      var before := db;
      var message := |db.messages|;
      var error := Pump(message, cmd);
      if error.Some? {
        db := before;
        return Err(error.value);
      }
      AllGroupsPumped(before, cmd);
      PumpedIsAcceptable(before, cmd);
      var notifications := Range(|before.notes|, |db.notes| - |before.notes|);
      var smsIds := Range(|before.sms|, |db.sms| - |before.sms|);
      var mailId := if |db.mails| > |before.mails| then Some(|before.mails|) else None;
      StageEvents(KeyFor(cmd, message), message, |notifications|, smsIds);
      PostIsSound(before, cmd);
      return Ok(Posted(message, notifications, mailId, smsIds));
    }

    /** The message row, then every group through its strategy; an error names a command that
        is not acceptable. */
    method Pump(message: nat, cmd: Command) returns (error: Option<PostError>)
      requires Sound(db) && message == |db.messages| && HasText(cmd.body)
      modifies this`db
      ensures error.None? ==>
        && db == PumpedTables(old(db), cmd, Channels(cmd.recipients)) && UniqueKeys(db.notes)
        && AllReachable(Channels(cmd.recipients), cmd.recipients)
      ensures error.Some? ==> !Acceptable(cmd) && error.value != NoBody && error.value != HalfAnEdge
    {
      ghost var before := db;
      var mail := |db.mails|;
      db := db.(messages := db.messages + [Message(cmd.body, cmd.model, cmd.resId)]);
      var groups := GroupByChannel(cmd.recipients);
      ghost var cs, rs := Channels(cmd.recipients), cmd.recipients;
      ChannelsFacts(rs);
      NoGroupsPumped(before, cmd);
      for g := 0 to |groups|
        invariant db == PumpedTables(before, cmd, cs[..g])
        invariant UniqueKeys(db.notes)
        invariant AllReachable(cs[..g], rs)
      {
        var c, group := groups[g].0, groups[g].1;
        assert c == cs[g] && c in cs && c !in cs[..g] && cs[..g + 1] == cs[..g] + [c] && group == InChannel(c, rs);
        ghost var now := db;
        if c == Email { EmailIsFirst(before, cmd, cs[..g], c); }
        error := DispatchChannel(message, cmd, mail, c, group);
        if error.Some? {
          NotPumped(before, cmd, g);
          return;
        }
        GroupPumped(before, cmd, cs[..g], c, now, db);
        OneMoreReachable(cs[..g], c, rs);
      }
      assert cs[..|groups|] == cs;
      error := None;
    }

    method StageEvents(key: ChannelKey, message: nat, notifications: nat, smsIds: seq<nat>)
      modifies this`db
      ensures db == old(db).(
        events := old(db).events + ([MessagePosted(key, message, notifications)] + CreatedEvents(key, smsIds)))
    {
      ghost var was := db;
      db := db.(events := db.events + [MessagePosted(key, message, notifications)]);
      for i := 0 to |smsIds|
        invariant db == was.(
          events := was.events + ([MessagePosted(key, message, notifications)] + CreatedEvents(key, smsIds[..i])))
      {
        assert CreatedEvents(key, smsIds[..i + 1]) == CreatedEvents(key, smsIds[..i]) + [SmsCreated(key, smsIds[i])];
        db := db.(events := db.events + [SmsCreated(key, smsIds[i])]);
      }
      assert smsIds[..|smsIds|] == smsIds;
    }
  }
}
