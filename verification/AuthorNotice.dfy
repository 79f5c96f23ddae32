/** The failure path of a scheduled message: an inbox notification on the author's own wall, best effort
    (src/application/service/schedule_write_service.rs). */
module AuthorNotice {
  import opened Prelude
  import opened Events

  /** `wall` is the partner whose wall the message is on, when it is on one. */
  datatype Message = Message(wall: Option<Uuid>, author: Option<Uuid>, date: int)

  /** An inbox or email notification; the unique index allows one per message and partner. */
  datatype Notification = Notification(message: nat, partner: Uuid)

  /** A message's position is its id. */
  datatype Board = Board(messages: seq<Message>, notifications: seq<Notification>)

  predicate Sound(b: Board) {
    Distinct(b.notifications) && forall n :: n in b.notifications ==> n.message < |b.messages|
  }

  /** A message the author wrote on their own wall. */
  predicate Own(b: Board, author: Uuid, m: int) {
    0 <= m < |b.messages| && b.messages[m].wall == Some(author) && b.messages[m].author == Some(author)
  }

  /** The carrier is the author's latest own wall message, if there is any. */
  ghost predicate CarrierIs(b: Board, author: Uuid, carrier: Option<nat>) {
    match carrier
    case Some(m) => Own(b, author, m) && forall k :: Own(b, author, k) ==> b.messages[k].date <= b.messages[m].date
    case None => forall k :: !Own(b, author, k)
  }

  /** Without a carrier a note without author is minted to carry the notification; with one, the
      insert may be refused by the index, and then nothing has happened. */
  function AfterNotice(b: Board, author: Uuid, carrier: Option<nat>, now: int): Board {
    match carrier
    case None =>
      Board(b.messages + [Message(Some(author), None, now)],
            b.notifications + [Notification(|b.messages|, author)])
    case Some(m) =>
      if Notification(m, author) in b.notifications then b
      else b.(notifications := b.notifications + [Notification(m, author)])
  }

  /** `after` is what the failure path for `author` makes of `before`. */
  ghost predicate Noticed(before: Board, after: Board, author: Uuid, now: int) {
    exists carrier :: CarrierIs(before, author, carrier) && after == AfterNotice(before, author, carrier, now)
  }

  /** The author has a notification that was not there before. */
  predicate Told(before: Board, after: Board, author: Uuid) {
    exists n :: n in after.notifications && n.partner == author && n !in before.notifications
  }

  lemma NoticeKeepsSound(b: Board, author: Uuid, carrier: Option<nat>, now: int)
    requires Sound(b) && CarrierIs(b, author, carrier)
    ensures Sound(AfterNotice(b, author, carrier, now))
    ensures b.notifications <= AfterNotice(b, author, carrier, now).notifications
  {
    var after := AfterNotice(b, author, carrier, now);
    forall n | n in after.notifications
      ensures n.message < |after.messages|
    {
      assert n in b.notifications || n.message < |after.messages|;
    }
  }

  /** The author of a failed message is told if and only if they have no message on their own wall, or
      the latest one carries no inbox or email notification for them yet. */
  lemma AuthorIsToldIff(b: Board, author: Uuid, carrier: Option<nat>, now: int)
    requires Sound(b) && CarrierIs(b, author, carrier)
    ensures Told(b, AfterNotice(b, author, carrier, now), author) <==>
      (forall k :: !Own(b, author, k))
      || (carrier.Some? && Notification(carrier.value, author) !in b.notifications)
    ensures Told(b, AfterNotice(b, author, carrier, now), author) <==> Tells(b, author, carrier)
  {
    var after := AfterNotice(b, author, carrier, now);
    match carrier
    case None =>
      var n := Notification(|b.messages|, author);
      assert n in after.notifications && n !in b.notifications;
    case Some(m) =>
      if Notification(m, author) !in b.notifications {
        assert Notification(m, author) in after.notifications;
      }
  }

  /** What an observer of the notifications would check. */
  predicate Tells(b: Board, author: Uuid, carrier: Option<nat>) {
    carrier.None? || Notification(carrier.value, author) !in b.notifications
  }

  /** Two failures in a row: the author hears of the second one if and only if they have nothing on
      their own wall, or the lookup of the latest message breaks a tie the other way this time and
      that one carries nothing for them yet. Otherwise the second message is gone and nobody
      was told. */
  lemma SecondFailureIsToldIff(
      b: Board, author: Uuid, carrier: Option<nat>, now: int, carrier': Option<nat>, now': int)
    requires Sound(b) && CarrierIs(b, author, carrier)
    requires CarrierIs(AfterNotice(b, author, carrier, now), author, carrier')
    ensures var once := AfterNotice(b, author, carrier, now);
      var twice := AfterNotice(once, author, carrier', now');
      && (Told(once, twice, author) <==>
            (forall k :: !Own(b, author, k))
            || (carrier.Some? && carrier' != carrier && Tells(b, author, carrier')))
      && (carrier.Some? ==>
            carrier'.Some? && Own(b, author, carrier'.value)
            && b.messages[carrier'.value].date == b.messages[carrier.value].date)
      && (carrier.Some? && carrier' == carrier ==> twice == once)
  {
    var once := AfterNotice(b, author, carrier, now);
    NoticeKeepsSound(b, author, carrier, now);
    if carrier.None? {
      forall k
        ensures !Own(once, author, k)
      {
        assert !Own(b, author, k);
      }
    } else {
      assert forall k :: Own(once, author, k) <==> Own(b, author, k);
      assert Own(once, author, carrier.value);
    }
    AuthorIsToldIff(once, author, carrier', now');
  }
}
