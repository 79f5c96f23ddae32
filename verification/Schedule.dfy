/** Deferred posts and deferred notifications, one batch at a time
    (src/application/service/schedule_write_service.rs). */
module Schedule {
  import opened Prelude
  import opened Events
  import opened Holdings
  import opened AuthorNotice
  import Fanout
  import NotifyPump
  import Recipients

  datatype Scheduled = Scheduled(
    dueAt: int, author: Uuid, model: string, resId: Uuid, body: string, recipients: seq<Uuid>)

  /** A held notification: the message exists, its thread edge may not. */
  datatype Held = Held(dueAt: int, message: nat, thread: Option<(string, Uuid)>)

  function DueScheduled(rows: map<Uuid, Scheduled>, now: int): set<Uuid> {
    set id | id in rows && rows[id].dueAt <= now
  }

  function DueHeld(rows: map<Uuid, Held>, now: int): set<Uuid> {
    set id | id in rows && rows[id].dueAt <= now
  }

  function Without<V>(rows: map<Uuid, V>, ids: seq<Uuid>): map<Uuid, V> {
    map id | id in rows && id !in ids :: rows[id]
  }

  function DueTime(rows: map<Uuid, Scheduled>): Uuid -> int {
    (id: Uuid) => if id in rows then rows[id].dueAt else 0
  }

  function HeldTime(rows: map<Uuid, Held>): Uuid -> int {
    (id: Uuid) => if id in rows then rows[id].dueAt else 0
  }

  function InboxFor(partners: seq<Uuid>): seq<Fanout.Recipient> {
    seq(|partners|, i requires 0 <= i < |partners| => Fanout.Recipient(Some(partners[i]), Fanout.Inbox, None, None))
  }

  /** What the dispatch asks of the pump for a row. */
  function CommandOf(row: Scheduled): NotifyPump.Command {
    NotifyPump.Command(row.body, Some(row.model), Some(row.resId), None, InboxFor(row.recipients))
  }

  /** The pump takes a row exactly when its body is not blank and it names nobody twice. */
  lemma PumpAcceptsIff(row: Scheduled)
    ensures NotifyPump.Acceptable(CommandOf(row)) <==> Recipients.Trim(row.body) != "" && Distinct(row.recipients)
  {
    var rs := InboxFor(row.recipients);
    assert forall i, j :: 0 <= i < j < |rs| ==>
      (Fanout.SamePartner(rs[i], rs[j]) <==> row.recipients[i] == row.recipients[j]);
  }

  /** The row fires: permission at fire time, and the pump accepts the post. */
  predicate Fires(rows: map<Uuid, Scheduled>, id: Uuid, mayPost: Scheduled -> bool) {
    id in rows && mayPost(rows[id]) && NotifyPump.Acceptable(CommandOf(rows[id]))
  }

  /** What a successful post leaves on the board: its message, and its recipients' notifications. */
  function PostedOn(b: Board, row: Scheduled, now: int): Board {
    Board(b.messages + [Message(if row.model == "res.partner" then Some(row.resId) else None, Some(row.author), now)],
          b.notifications + Minted(|b.messages|, row.recipients))
  }

  lemma PostKeepsSound(b: Board, row: Scheduled, now: int)
    requires Sound(b) && Distinct(row.recipients)
    ensures Sound(PostedOn(b, row, now)) && b.notifications <= PostedOn(b, row, now).notifications
  {
    var minted := Minted(|b.messages|, row.recipients);
    assert forall n :: n in minted ==> n.message == |b.messages|;
    DistinctConcat(b.notifications, minted);
  }

  // ---- the board is what the message tables show ----

  /** The wall a message is on. */
  function WallOf(m: NotifyPump.Message): Option<Uuid> {
    if m.model == Some("res.partner") then m.resId else None
  }

  predicate Indexed(n: Fanout.Notification) { n.partner.Some? && n.channel != Fanout.Texting }

  /** The part of the notifications table that the unique index is about. */
  function OnBoard(notes: seq<Fanout.Notification>): seq<Notification> {
    if notes == [] then []
    else
      var n := notes[|notes| - 1];
      OnBoard(notes[..|notes| - 1]) + if Indexed(n) then [Notification(n.message, n.partner.value)] else []
  }

  ghost predicate Shows(b: Board, db: NotifyPump.Tables) {
    && |b.messages| == |db.messages|
    && (forall m :: 0 <= m < |b.messages| ==> b.messages[m].wall == WallOf(db.messages[m]))
    && b.notifications == OnBoard(db.notes)
  }

  lemma OnBoardStep(notes: seq<Fanout.Notification>, n: Fanout.Notification)
    ensures OnBoard(notes + [n])
      == OnBoard(notes) + if Indexed(n) then [Notification(n.message, n.partner.value)] else []
  {
  }

  lemma {:induction false} OnBoardHas(notes: seq<Fanout.Notification>, x: Notification)
    ensures x in OnBoard(notes) <==>
      exists k :: 0 <= k < |notes| && Indexed(notes[k]) && x == Notification(notes[k].message, notes[k].partner.value)
  {
    if notes != [] {
      var init, n := notes[..|notes| - 1], notes[|notes| - 1];
      assert notes == init + [n];
      OnBoardHas(init, x);
      OnBoardStep(init, n);
      assert forall k :: 0 <= k < |init| ==> init[k] == notes[k];
    }
  }

  /** The unique index of the pump's tables holds exactly when no notification is on the board twice. */
  lemma {:induction false} IndexIffDistinctOnBoard(notes: seq<Fanout.Notification>)
    ensures Fanout.UniqueKeys(notes) <==> Distinct(OnBoard(notes))
  {
    if notes != [] {
      var init, n := notes[..|notes| - 1], notes[|notes| - 1];
      assert notes == init + [n];
      IndexIffDistinctOnBoard(init);
      OnBoardStep(init, n);
      if Fanout.UniqueKeys(init) {
        Fanout.UniqueKeysStep(init, n);
        if Indexed(n) {
          OnBoardHas(init, Notification(n.message, n.partner.value));
          DistinctAppend(OnBoard(init), Notification(n.message, n.partner.value));
        }
      } else {
        var i, j :| 0 <= i < j < |init| && Fanout.SameKey(init[i], init[j]);
        assert Fanout.SameKey(notes[i], notes[j]);
        DistinctPrefix(OnBoard(init), OnBoard(notes));
      }
    }
  }

  lemma {:induction false} InboxIsOneGroup(partners: seq<Uuid>)
    ensures Fanout.Channels(InboxFor(partners)) == if partners == [] then [] else [Fanout.Inbox]
    ensures Fanout.InChannel(Fanout.Inbox, InboxFor(partners)) == InboxFor(partners)
  {
    var rs := InboxFor(partners);
    if partners != [] {
      InboxIsOneGroup(partners[..|partners| - 1]);
      assert rs[..|rs| - 1] == InboxFor(partners[..|partners| - 1]);
      assert rs == rs[..|rs| - 1] + [rs[|rs| - 1]];
    }
  }

  lemma InboxFansOut(partners: seq<Uuid>)
    ensures Fanout.Fanned(InboxFor(partners)) == InboxFor(partners)
  {
    InboxIsOneGroup(partners);
    var rs := InboxFor(partners);
    var cs := Fanout.Channels(rs);
    assert Fanout.FanOver([], rs) == [];
    if partners != [] {
      assert cs[..|cs| - 1] == [];
      assert Fanout.FanOver(cs, rs) == [] + Fanout.InChannel(Fanout.Inbox, rs);
    }
  }

  lemma {:induction false} MintedOnBoard(
      notes: seq<Fanout.Notification>, message: nat, mail: nat, partners: seq<Uuid>)
    ensures OnBoard(notes + Fanout.NotesFor(message, mail, InboxFor(partners)))
         == OnBoard(notes) + Minted(message, partners)
  {
    if partners == [] {
      assert notes + Fanout.NotesFor(message, mail, InboxFor(partners)) == notes;
      assert OnBoard(notes) + Minted(message, partners) == OnBoard(notes);
    } else {
      var init, p := partners[..|partners| - 1], partners[|partners| - 1];
      MintedOnBoard(notes, message, mail, init);
      OneMoreInbox(notes, message, mail, init, p);
      OnBoardStep(notes + Fanout.NotesFor(message, mail, InboxFor(init)), InboxNote(message, p));
      OneMoreMinted(OnBoard(notes), message, init, p);
      assert partners == init + [p];
    }
  }

  function InboxNote(message: nat, partner: Uuid): Fanout.Notification {
    Fanout.Notification(message, Some(partner), Fanout.Inbox, Fanout.SentAtOnce, None)
  }

  lemma OneMoreInbox(notes: seq<Fanout.Notification>, message: nat, mail: nat, partners: seq<Uuid>, p: Uuid)
    ensures notes + Fanout.NotesFor(message, mail, InboxFor(partners + [p]))
         == notes + Fanout.NotesFor(message, mail, InboxFor(partners)) + [InboxNote(message, p)]
  {
    var rs := InboxFor(partners + [p]);
    assert rs[..|partners|] == InboxFor(partners) && rs[..|partners| + 1] == rs;
    Fanout.NotesStep(notes, message, mail, rs, |partners|);
  }

  lemma OneMoreMinted(before: seq<Notification>, message: nat, partners: seq<Uuid>, p: Uuid)
    ensures before + Minted(message, partners + [p])
         == before + Minted(message, partners) + [Notification(message, p)]
  {
  }

  /** A dispatched post leaves on the board what the pump leaves in its tables. */
  lemma PostShows(b: Board, db: NotifyPump.Tables, row: Scheduled, now: int)
    requires Shows(b, db)
    ensures Shows(PostedOn(b, row, now), NotifyPump.PostedTables(db, CommandOf(row)))
  {
    InboxFansOut(row.recipients);
    MintedOnBoard(db.notes, |db.messages|, |db.mails|, row.recipients);
  }

  /** Of the dispatched rows, in order, those that fired (or those that did not). */
  function Outcome(rows: map<Uuid, Scheduled>, ids: seq<Uuid>, mayPost: Scheduled -> bool, fired: bool): seq<Uuid> {
    if ids == [] then []
    else
      var id := ids[|ids| - 1];
      Outcome(rows, ids[..|ids| - 1], mayPost, fired) + if Fires(rows, id, mayPost) == fired then [id] else []
  }

  lemma OutcomeStep(rows: map<Uuid, Scheduled>, ids: seq<Uuid>, id: Uuid, mayPost: Scheduled -> bool)
    ensures forall b :: Outcome(rows, ids + [id], mayPost, b)
                     == Outcome(rows, ids, mayPost, b) + (if Fires(rows, id, mayPost) == b then [id] else [])
  {
  }

  lemma OutcomeExtends(before: seq<Uuid>, rows: map<Uuid, Scheduled>, ids: seq<Uuid>, id: Uuid,
                       mayPost: Scheduled -> bool, fired: bool)
    ensures before + Outcome(rows, ids + [id], mayPost, fired)
         == before + Outcome(rows, ids, mayPost, fired) + if Fires(rows, id, mayPost) == fired then [id] else []
  {
  }

  /** `ids` have been dispatched, in this order. */
  predicate Dispatched(
      rows0: map<Uuid, Scheduled>, posts0: seq<Uuid>, failures0: seq<Uuid>, ids: seq<Uuid>,
      mayPost: Scheduled -> bool, rows: map<Uuid, Scheduled>, posts: seq<Uuid>, failures: seq<Uuid>) {
    && rows == Without(rows0, ids)
    && posts == posts0 + Outcome(rows0, ids, mayPost, true)
    && failures == failures0 + Outcome(rows0, ids, mayPost, false)
  }

  lemma DispatchedStep(
      rows0: map<Uuid, Scheduled>, posts0: seq<Uuid>, failures0: seq<Uuid>, ids: seq<Uuid>,
      mayPost: Scheduled -> bool, rows: map<Uuid, Scheduled>, posts: seq<Uuid>, failures: seq<Uuid>, id: Uuid)
    requires Dispatched(rows0, posts0, failures0, ids, mayPost, rows, posts, failures)
    requires id in rows0 && id !in ids
    ensures id in rows && Fires(rows, id, mayPost) == Fires(rows0, id, mayPost)
    ensures var ok := Fires(rows, id, mayPost);
      Dispatched(rows0, posts0, failures0, ids + [id], mayPost, rows - {id},
                 posts + (if ok then [id] else []), failures + (if ok then [] else [id]))
  {
    WithoutStep(rows0, ids, id);
    OutcomeExtends(posts0, rows0, ids, id, mayPost, true);
    OutcomeExtends(failures0, rows0, ids, id, mayPost, false);
  }

  lemma WithoutStep<V>(rows: map<Uuid, V>, ids: seq<Uuid>, id: Uuid)
    ensures Without(rows, ids + [id]) == Without(rows, ids) - {id}
  {
  }

  /** Every dispatched row fired or did not: nothing is counted twice or dropped. */
  lemma {:induction false} OutcomesPartition(rows: map<Uuid, Scheduled>, ids: seq<Uuid>, mayPost: Scheduled -> bool,
      id: Uuid)
    ensures multiset(Outcome(rows, ids, mayPost, Fires(rows, id, mayPost)))[id] == multiset(ids)[id]
    ensures id !in Outcome(rows, ids, mayPost, !Fires(rows, id, mayPost))
  {
    if ids != [] {
      var init, last := ids[..|ids| - 1], ids[|ids| - 1];
      assert ids == init + [last];
      OutcomesPartition(rows, init, mayPost, id);
      OutcomeStep(rows, init, last, mayPost);
    }
  }

  function Minted(message: nat, followers: seq<Uuid>): seq<Notification> {
    seq(|followers|, i requires 0 <= i < |followers| => Notification(message, followers[i]))
  }

  /** A dispatched message with a thread mints one inbox notification per follower of it. */
  function MintedForOne(row: Held, followers: (string, Uuid) -> seq<Uuid>): seq<Notification> {
    if row.thread.None? then [] else Minted(row.message, followers(row.thread.value.0, row.thread.value.1))
  }

  function MintedFor(rows: map<Uuid, Held>, ids: seq<Uuid>, followers: (string, Uuid) -> seq<Uuid>): seq<Notification> {
    if ids == [] then []
    else
      var id := ids[|ids| - 1];
      MintedFor(rows, ids[..|ids| - 1], followers) + if id in rows then MintedForOne(rows[id], followers) else []
  }

  lemma MintedStep(rows: map<Uuid, Held>, ids: seq<Uuid>, id: Uuid, followers: (string, Uuid) -> seq<Uuid>)
    requires id in rows
    ensures MintedFor(rows, ids + [id], followers)
      == MintedFor(rows, ids, followers) + MintedForOne(rows[id], followers)
  {
  }

  function With(b: Board, minted: seq<Notification>): Board { b.(notifications := b.notifications + minted) }

  lemma WithStep(
      b: Board, rows: map<Uuid, Held>, ids: seq<Uuid>, id: Uuid, followers: (string, Uuid) -> seq<Uuid>)
    requires id in rows
    ensures With(b, MintedFor(rows, ids + [id], followers))
         == With(With(b, MintedFor(rows, ids, followers)), MintedForOne(rows[id], followers))
  {
    MintedStep(rows, ids, id, followers);
    Associate(b.notifications, MintedFor(rows, ids, followers), MintedForOne(rows[id], followers));
  }

  /** What the index refuses of the first rows it refuses of all of them. */
  lemma RefusedForGood(
      b: Board, rows: map<Uuid, Held>, ids: seq<Uuid>, i: nat, followers: (string, Uuid) -> seq<Uuid>)
    requires i <= |ids| && !Distinct(With(b, MintedFor(rows, ids[..i], followers)).notifications)
    ensures !Distinct(b.notifications + MintedFor(rows, ids, followers))
  {
    MintedPrefix(rows, ids, i, followers);
    DistinctPrefix(b.notifications + MintedFor(rows, ids[..i], followers),
                   b.notifications + MintedFor(rows, ids, followers));
  }

  lemma {:induction false} MintedIsKnown(
      rows: map<Uuid, Held>, ids: seq<Uuid>, followers: (string, Uuid) -> seq<Uuid>, bound: nat)
    requires forall id :: id in rows ==> rows[id].message < bound
    ensures forall n :: n in MintedFor(rows, ids, followers) ==> n.message < bound
  {
    if ids != [] {
      MintedIsKnown(rows, ids[..|ids| - 1], followers, bound);
    }
  }

  lemma {:induction false} MintedPrefix(rows: map<Uuid, Held>, ids: seq<Uuid>, i: nat,
      followers: (string, Uuid) -> seq<Uuid>)
    requires i <= |ids|
    ensures MintedFor(rows, ids[..i], followers) <= MintedFor(rows, ids, followers)
  {
    if i == |ids| {
      assert ids[..i] == ids;
    } else {
      MintedPrefix(rows, ids[..|ids| - 1], i, followers);
      assert ids[..|ids| - 1][..i] == ids[..i];
    }
  }

  lemma DistinctPrefix<T>(a: seq<T>, b: seq<T>)
    requires a <= b && !Distinct(a)
    ensures !Distinct(b)
  {
  }

  lemma DistinctAppend<T>(a: seq<T>, x: T)
    requires Distinct(a)
    ensures Distinct(a + [x]) <==> x !in a
  {
    if x in a {
      var i :| 0 <= i < |a| && a[i] == x;
      assert (a + [x])[i] == (a + [x])[|a|];
    }
  }

  /** One claimed row whose thread has a follower already notified of its message is enough: the
      batch is refused, and so is every later one that claims the row. */
  lemma NotifiedFollowerBlocksTheBatch(
      before: seq<Notification>, rows: map<Uuid, Held>, ids: seq<Uuid>, id: Uuid, partner: Uuid,
      followers: (string, Uuid) -> seq<Uuid>)
    requires id in ids && id in rows && rows[id].thread.Some?
    requires partner in followers(rows[id].thread.value.0, rows[id].thread.value.1)
    requires Notification(rows[id].message, partner) in before
    ensures !Distinct(before + MintedFor(rows, ids, followers))
  {
    MintedIncludes(rows, ids, id, partner, followers);
    var n, minted := Notification(rows[id].message, partner), MintedFor(rows, ids, followers);
    var i :| 0 <= i < |before| && before[i] == n;
    var j :| 0 <= j < |minted| && minted[j] == n;
    assert (before + minted)[i] == (before + minted)[|before| + j];
  }

  lemma {:induction false} MintedIncludes(rows: map<Uuid, Held>, ids: seq<Uuid>, id: Uuid, partner: Uuid,
      followers: (string, Uuid) -> seq<Uuid>)
    requires id in ids && id in rows && rows[id].thread.Some?
    requires partner in followers(rows[id].thread.value.0, rows[id].thread.value.1)
    ensures Notification(rows[id].message, partner) in MintedFor(rows, ids, followers)
  {
    var init, last := ids[..|ids| - 1], ids[|ids| - 1];
    if id in init {
      MintedIncludes(rows, init, id, partner, followers);
    } else {
      var partners := followers(rows[id].thread.value.0, rows[id].thread.value.1);
      var k :| 0 <= k < |partners| && partners[k] == partner;
      assert Minted(rows[id].message, partners)[k] == Notification(rows[id].message, partner);
    }
  }

  class ScheduleWriteService {
    var scheduled: map<Uuid, Scheduled>
    var held: map<Uuid, Held>
    // The messages and inbox notifications this service's work shows up in.
    var board: Board
    // What left this service: posts accepted by the pump, and failure paths run.
    var posts: seq<Uuid>
    var failures: seq<Uuid>
    var batchLimit: nat

    /** Every held row is about a message that exists. */
    ghost predicate Valid()
      reads this
    {
      Sound(board) && forall id :: id in held ==> held[id].message < |board.messages|
    }

    constructor (scheduled: map<Uuid, Scheduled>, held: map<Uuid, Held>, board: Board)
      requires Sound(board) && forall id :: id in held ==> held[id].message < |board.messages|
      ensures Valid() && this.scheduled == scheduled && this.held == held && this.board == board
      ensures batchLimit == 100 && posts == [] && failures == []
    {
      this.scheduled, this.held, this.board, batchLimit := scheduled, held, board, 100;
      posts, failures := [], [];
    }

    /** A dispatch nobody interrupts: the earliest due rows are claimed, every claimed row is posted or
        goes down the failure path, once, and is gone; every other row stays. Permission is asked
        at fire time. */
    method DispatchDueScheduled(now: int, mayPost: Scheduled -> bool)
        returns (posted: nat, skipped: nat, claimed: seq<Uuid>)
      requires Valid()
      modifies this`scheduled, this`posts, this`failures, this`board
      ensures Valid() && old(board).notifications <= board.notifications
      ensures Distinct(claimed) && |claimed| == Min(batchLimit, |DueScheduled(old(scheduled), now)|)
      ensures forall id :: id in claimed ==> id in DueScheduled(old(scheduled), now)
      ensures TakenFirst(claimed, DueScheduled(old(scheduled), now), DueTime(old(scheduled)))
      ensures scheduled == Without(old(scheduled), claimed)
      ensures posts == old(posts) + Outcome(old(scheduled), claimed, mayPost, true)
      ensures failures == old(failures) + Outcome(old(scheduled), claimed, mayPost, false)
      ensures posted == |posts| - |old(posts)| && skipped == |failures| - |old(failures)|
      ensures posted + skipped == |claimed|
    {
      claimed := TakeFirst(DueScheduled(scheduled, now), DueTime(scheduled), batchLimit);
      posted, skipped := DispatchAll(claimed, now, mayPost);
    }

    method DispatchAll(claimed: seq<Uuid>, now: int, mayPost: Scheduled -> bool) returns (posted: nat, skipped: nat)
      requires Valid() && Distinct(claimed) && forall id :: id in claimed ==> id in scheduled
      modifies this`scheduled, this`posts, this`failures, this`board
      ensures Valid() && old(board).notifications <= board.notifications
      ensures scheduled == Without(old(scheduled), claimed)
      ensures posts == old(posts) + Outcome(old(scheduled), claimed, mayPost, true)
      ensures failures == old(failures) + Outcome(old(scheduled), claimed, mayPost, false)
      ensures posted == |posts| - |old(posts)| && skipped == |failures| - |old(failures)|
      ensures posted + skipped == |claimed|
    {
      posted, skipped := 0, 0;
      for i := 0 to |claimed|
        invariant Valid() && old(board).notifications <= board.notifications
        invariant Dispatched(
          old(scheduled), old(posts), old(failures), claimed[..i], mayPost, scheduled, posts, failures)
        invariant posted == |posts| - |old(posts)| && skipped == |failures| - |old(failures)|
        invariant posted + skipped == i
      {
        var id := claimed[i];
        assert claimed[..i + 1] == claimed[..i] + [id];
        assert id in claimed && id !in claimed[..i];
        DispatchedStep(
          old(scheduled), old(posts), old(failures), claimed[..i], mayPost, scheduled, posts, failures, id);
        var ok := DispatchOne(id, now, mayPost);
        if ok { posted := posted + 1; } else { skipped := skipped + 1; }
      }
      assert claimed[..|claimed|] == claimed;
    }

    /** One row: removed, then posted if its author may post and the pump accepts, else its author
        is notified as far as that goes. */
    method DispatchOne(id: Uuid, now: int, mayPost: Scheduled -> bool) returns (ok: bool)
      requires Valid() && id in scheduled
      modifies this`scheduled, this`posts, this`failures, this`board
      ensures Valid() && old(board).notifications <= board.notifications
      ensures ok == Fires(old(scheduled), id, mayPost)
      ensures scheduled == old(scheduled) - {id}
      ensures posts == old(posts) + (if ok then [id] else [])
      ensures failures == old(failures) + (if ok then [] else [id])
      ensures ok ==> board == PostedOn(old(board), old(scheduled)[id], now)
      ensures !ok ==> Noticed(old(board), board, old(scheduled)[id].author, now)
    {
      var m := scheduled[id];
      scheduled := scheduled - {id};
      ok := mayPost(m) && NotifyPump.Acceptable(CommandOf(m));
      if ok {
        PumpAcceptsIff(m);
        PostKeepsSound(board, m, now);
        posts := posts + [id];
        board := PostedOn(board, m, now);
      } else {
        failures := failures + [id];
        NotifyAuthorOfFailure(m.author, now);
      }
    }

    /** The latest message the author wrote on their own wall. */
    method LatestAuthorWallMessage(author: Uuid) returns (carrier: Option<nat>)
      ensures CarrierIs(board, author, carrier)
    {
      carrier := None;
      for i := 0 to |board.messages|
        invariant carrier.None? ==> forall k :: 0 <= k < i ==> !Own(board, author, k)
        invariant carrier.Some? ==> carrier.value < i && Own(board, author, carrier.value)
        invariant carrier.Some? ==>
          forall k :: 0 <= k < i && Own(board, author, k) ==>
            board.messages[k].date <= board.messages[carrier.value].date
      {
        if Own(board, author, i)
           && (carrier.None? || board.messages[carrier.value].date <= board.messages[i].date) {
          carrier := Some(i);
        }
      }
    }

    method NotifyAuthorOfFailure(author: Uuid, now: int)
      requires Valid()
      modifies this`board
      ensures Valid() && old(board).notifications <= board.notifications
      ensures Noticed(old(board), board, author, now)
    {
      var carrier := LatestAuthorWallMessage(author);
      NoticeKeepsSound(board, author, carrier, now);
      board := AfterNotice(board, author, carrier, now);
    }

    /** Held notifications: one notification per follower of each claimed row's thread, and the rows
        are gone; or, when the unique index refuses one of them, nothing at all has happened. */
    method DispatchDueNotify(now: int, followers: (string, Uuid) -> seq<Uuid>)
        returns (r: Result<nat, ()>, claimed: seq<Uuid>)
      requires Valid()
      modifies this`held, this`board
      ensures Valid() && board.messages == old(board).messages
      ensures Distinct(claimed) && |claimed| == Min(batchLimit, |DueHeld(old(held), now)|)
      ensures forall id :: id in claimed ==> id in DueHeld(old(held), now)
      ensures TakenFirst(claimed, DueHeld(old(held), now), HeldTime(old(held)))
      ensures r.Ok? <==> Distinct(old(board).notifications + MintedFor(old(held), claimed, followers))
      ensures r.Ok? ==>
        && r.value == |claimed| && held == Without(old(held), claimed)
        && board.notifications == old(board).notifications + MintedFor(old(held), claimed, followers)
      ensures r.Err? ==> held == old(held) && board == old(board)
    {
      var heldBefore, boardBefore := held, board;
      claimed := TakeFirst(DueHeld(held, now), HeldTime(held), batchLimit);
      var ok := NotifyAll(claimed, followers);
      if !ok {
        held, board := heldBefore, boardBefore;
        return Err(()), claimed;
      }
      MintedIsKnown(heldBefore, claimed, followers, |board.messages|);
      r := Ok(|claimed|);
    }

    method NotifyAll(due: seq<Uuid>, followers: (string, Uuid) -> seq<Uuid>) returns (ok: bool)
      requires Distinct(due) && forall id :: id in due ==> id in held
      requires Distinct(board.notifications)
      modifies this`held, this`board
      ensures ok <==> Distinct(old(board).notifications + MintedFor(old(held), due, followers))
      ensures ok ==> held == Without(old(held), due)
      ensures ok ==> board == With(old(board), MintedFor(old(held), due, followers))
    {
      for i := 0 to |due|
        invariant held == Without(old(held), due[..i])
        invariant board == With(old(board), MintedFor(old(held), due[..i], followers))
        invariant Distinct(board.notifications)
      {
        var id := due[i];
        assert due[..i + 1] == due[..i] + [id];
        assert id in due && id !in due[..i];
        WithoutStep(old(held), due[..i], id);
        var row := held[id];
        WithStep(old(board), old(held), due[..i], id, followers);
        ok := MintOne(row, followers);
        if !ok {
          RefusedForGood(old(board), old(held), due, i + 1, followers);
          return;
        }
        held := held - {id};
      }
      assert due[..|due|] == due;
      ok := true;
    }

    method MintOne(row: Held, followers: (string, Uuid) -> seq<Uuid>) returns (ok: bool)
      requires Distinct(board.notifications)
      modifies this`board
      ensures ok <==> Distinct(With(old(board), MintedForOne(row, followers)).notifications)
      ensures ok ==> board == With(old(board), MintedForOne(row, followers))
    {
      ghost var was := board;
      if row.thread.None? {
        assert was.notifications + [] == was.notifications;
        return true;
      }
      var partners := followers(row.thread.value.0, row.thread.value.1);
      assert was.notifications + Minted(row.message, []) == was.notifications;
      for j := 0 to |partners|
        invariant board == With(was, Minted(row.message, partners[..j])) && Distinct(board.notifications)
      {
        var n := Notification(row.message, partners[j]);
        assert Minted(row.message, partners[..j + 1]) == Minted(row.message, partners[..j]) + [n];
        DistinctAppend(board.notifications, n);
        if n in board.notifications {
          assert board.notifications + [n] <= was.notifications + Minted(row.message, partners);
          DistinctPrefix(board.notifications + [n], was.notifications + Minted(row.message, partners));
          return false;
        }
        board := board.(notifications := board.notifications + [n]);
      }
      assert partners[..|partners|] == partners;
      ok := true;
    }
  }
}
